/** The exact parameters for window flow control of a migration: when acks are lost, and when
    the source stalls at a file with which nothing is wrong. */
module MigrationLimits {
  import opened Text
  import opened Paths
  import opened MigrationModel
  import opened MigrationSession
  import opened MigrationSteps
  import opened MigrationFlow
  import opened MigrationReads

  // ─── Feeding up to a number of bytes ─────────────────────────────────────────

  /** The acks for the first m multiples of 2^20. */
  function AcksUpTo(b: Session, m: nat): (acks: seq<ToSrc>)
    ensures |acks| == m
  {
    seq(m, i requires 0 <= i < m => AckOf(b, (i + 1) * E))
  }

  /** Fed with n bytes in pieces that end at multiples of 2^20. */
  function FedTo(j: Job, b: Session, k: nat, last: nat, n: nat): Session
    requires k < |j.files|
  {
    Fed(j, b, k, last, n, AcksUpTo(b, n / E), n / E * E)
  }

  lemma FeedPiece(j: Job, b: Session, destPath: string, store: Store, k: nat, last: nat, n: nat, r: nat)
    requires AtFile(j, b, destPath, store, k) && MayRead(j, k, n, r, Sized) && n + r <= (n / E + 1) * E
    ensures CanReach(j, FedTo(j, b, k, last, n), FedTo(j, b, k, n, n + r), Sized)
  {
    FeedOne(j, b, destPath, store, k, last, n, AcksUpTo(b, n / E), n / E * E, r, Sized);
    if n + r == (n / E + 1) * E {
      assert AcksUpTo(b, n / E) + [AckOf(b, n + r)] == AcksUpTo(b, (n + r) / E);
    } else {
      assert (n + r) / E == n / E;
    }
  }

  lemma {:induction false} FeedTo(j: Job, b: Session, destPath: string, store: Store, k: nat, last: nat, n: nat,
                                  target: nat) returns (last': nat)
    requires AtFile(j, b, destPath, store, k)
    requires n <= target <= j.window && target <= SizeOf(j, k)
    ensures CanReach(j, FedTo(j, b, k, last, n), FedTo(j, b, k, last', target), Sized)
    decreases target - n
  {
    if n == target {
      last' := last;
      ReachNothing(j, FedTo(j, b, k, last, n), Sized);
    } else {
      var r := Least(Least(j.chunkSize, target - n), (n / E + 1) * E - n);
      FeedPiece(j, b, destPath, store, k, last, n, r);
      last' := FeedTo(j, b, destPath, store, k, n, n + r, target);
      ReachTrans(j, FedTo(j, b, k, last, n), FedTo(j, b, k, n, n + r), FedTo(j, b, k, last', target), Sized);
    }
  }

  /** From the start of the session. */
  lemma FeedFile(j: Job, destPath: string, store: Store, k: nat, target: nat) returns (b: Session, last: nat)
    requires ValidJob(j, destPath) && k < |j.files| && !Covered(j, j.files[k])
    requires target <= j.window && target <= SizeOf(j, k)
    ensures AtFile(j, b, destPath, store, k)
    ensures CanReach(j, StartSession(destPath, j.completed, store), FedTo(j, b, k, last, target), Sized)
  {
    var start := StartSession(destPath, j.completed, store);
    b := OpenedFile(j, destPath, store, k);
    ReachSized(j, start, Fed(j, b, k, 0, 0, [], 0));
    assert FedTo(j, b, k, 0, 0) == Fed(j, b, k, 0, 0, [], 0) by { assert AcksUpTo(b, 0) == []; }
    last := FeedTo(j, b, destPath, store, k, 0, 0, target);
    ReachTrans(j, start, FedTo(j, b, k, 0, 0), FedTo(j, b, k, last, target), Sized);
  }

  /** Where full reads of a file come to rest while nothing is acked: at the end of the file, or
      where the window is filled. */
  function FullStop(n: nat, window: nat, chunkSize: nat, size: nat): nat
    requires chunkSize > 0
    decreases size - n
  {
    if n >= window || n >= size then n else FullStop(Least(n + chunkSize, size), window, chunkSize, size)
  }

  lemma {:induction false} FullStopBounds(n: nat, window: nat, chunkSize: nat, size: nat)
    requires chunkSize > 0 && n <= size
    ensures n <= FullStop(n, window, chunkSize, size) <= size
    ensures window <= size ==> FullStop(n, window, chunkSize, size) >= window
    decreases size - n
  {
    if n < window && n < size {
      FullStopBounds(Least(n + chunkSize, size), window, chunkSize, size);
    }
  }

  lemma MultiplesGrow(i: nat, m: nat, c: nat)
    requires i <= m
    ensures i * c <= m * c && (i + 1) * c == i * c + c
  {
  }

  lemma FullStopStep(n: nat, window: nat, chunkSize: nat, size: nat)
    requires chunkSize > 0 && n < window && n < size
    ensures FullStop(n, window, chunkSize, size) == FullStop(Least(n + chunkSize, size), window, chunkSize, size)
  {
  }

  /** That is the first multiple of the chunk size that fills the window, or the size. */
  lemma {:induction false} FullStopIsMultiple(i: nat, m: nat, window: nat, chunkSize: nat, size: nat)
    requires chunkSize > 0 && 0 < m && i <= m && (m - 1) * chunkSize < window <= m * chunkSize
    requires i * chunkSize <= size
    ensures FullStop(i * chunkSize, window, chunkSize, size) == Least(m * chunkSize, size)
    decreases m - i
  {
    MultiplesGrow(i, m, chunkSize);
    if i < m {
      MultiplesGrow(i, m - 1, chunkSize);
      MultiplesGrow(i + 1, m, chunkSize);
      var n := i * chunkSize;
      if n < size {
        FullStopStep(n, window, chunkSize, size);
        if n + chunkSize <= size {
          FullStopIsMultiple(i + 1, m, window, chunkSize, size);
        }
      }
    }
  }

  lemma {:induction false} FeedFully(j: Job, b: Session, destPath: string, store: Store, k: nat, last: nat, n: nat)
      returns (last': nat)
    requires AtFile(j, b, destPath, store, k) && n <= SizeOf(j, k)
    requires FullStop(n, j.window, j.chunkSize, SizeOf(j, k)) < E
    ensures CanReach(j, Fed(j, b, k, last, n, [], 0),
                     Fed(j, b, k, last', FullStop(n, j.window, j.chunkSize, SizeOf(j, k)), [], 0), Full)
    decreases SizeOf(j, k) - n
  {
    var s := Fed(j, b, k, last, n, [], 0);
    if n >= j.window || n >= SizeOf(j, k) {
      last' := last;
      ReachNothing(j, s, Full);
    } else {
      var r := Least(j.chunkSize, SizeOf(j, k) - n);
      var stop := FullStop(n + r, j.window, j.chunkSize, SizeOf(j, k));
      FullStopBounds(n + r, j.window, j.chunkSize, SizeOf(j, k));
      FeedOne(j, b, destPath, store, k, last, n, [], 0, r, Full);
      last' := FeedFully(j, b, destPath, store, k, n, n + r);
      ReachTrans(j, s, Fed(j, b, k, n, n + r, [], 0), Fed(j, b, k, last', stop, [], 0), Full);
      assert FullStop(n, j.window, j.chunkSize, SizeOf(j, k)) == stop;
    }
  }

  // ─── Runs that stall, and runs that lose acks ────────────────────────────────

  /** No message is in transit or queued. */
  predicate Idle(s: Session) {
    s.toDst == [] && s.toSrc == [] && s.chan.fileAck == [] && s.chan.windowAck == []
  }

  /** Full reads stall whenever they fill the window, or end the file, short of 2^20 bytes:
      everything sent is written and undamaged, nothing is under way, and the source waits. */
  lemma SmallWindowStalls(j: Job, destPath: string, store: Store, k: nat) returns (run: seq<Action>)
    requires ValidJob(j, destPath) && k < |j.files| && !Covered(j, j.files[k])
    requires j.window <= SizeOf(j, k) && FullStop(0, j.window, j.chunkSize, SizeOf(j, k)) < E
    ensures Feasible(j, StartSession(destPath, j.completed, store), run)
    ensures RunReads(j, StartSession(destPath, j.completed, store), run, Full)
    ensures var s := After(j, StartSession(destPath, j.completed, store), run);
            && Blocked(j, s) && Idle(s) && !s.dst.curBroken && s.dst.curWritten == |s.src.sent|
            && s.src.sent <= s.src.hashed && |s.src.hashed| == SizeOf(j, k)
  {
    var start := StartSession(destPath, j.completed, store);
    var b := OpenedFile(j, destPath, store, k);
    var last := FeedFully(j, b, destPath, store, k, 0, 0);
    var n := FullStop(0, j.window, j.chunkSize, SizeOf(j, k));
    ReachTrans(j, start, Fed(j, b, k, 0, 0, [], 0), Fed(j, b, k, last, n, [], 0), Full);
    run :| Leads(j, start, run, Fed(j, b, k, last, n, [], 0), Full);
    FullStopBounds(0, j.window, j.chunkSize, SizeOf(j, k));
    ZerosGrow(n, SizeOf(j, k));
  }

  /** All 65 acks are in transit when the last chunk has been written. */
  lemma PileUpAcks(j: Job, destPath: string, store: Store, k: nat) returns (t: Session)
    requires ValidJob(j, destPath) && k < |j.files| && !Covered(j, j.files[k]) && !Roomy(j)
    requires SizeOf(j, k) >= (WINDOW_ACK_SLOTS + 1) * E
    ensures CanReach(j, StartSession(destPath, j.completed, store), t, Sized)
    ensures t.chan.windowAck == [] && |t.toSrc| == WINDOW_ACK_SLOTS + 1
    ensures forall i :: 0 <= i < |t.toSrc| ==> t.toSrc[i].WindowAck?
  {
    var m := Least(j.chunkSize, E);
    var n := (WINDOW_ACK_SLOTS + 1) * E - m;
    var b, last := FeedFile(j, destPath, store, k, n);
    assert n / E == WINDOW_ACK_SLOTS;
    var acks := AcksUpTo(b, WINDOW_ACK_SLOTS);
    FeedOne(j, b, destPath, store, k, last, n, acks, WINDOW_ACK_SLOTS * E, m, Sized);
    t := Fuller(j, b, k, n, acks, WINDOW_ACK_SLOTS * E, m);
    ReachTrans(j, StartSession(destPath, j.completed, store), FedTo(j, b, k, last, n), t, Sized);
  }

  /** A window that outgrows the ack channel loses an ack of a file of 65 acks: all of them
      reach the source while it waits for the first. */
  lemma LargeWindowDrops(j: Job, destPath: string, store: Store, k: nat) returns (run: seq<Action>)
    requires ValidJob(j, destPath) && k < |j.files| && !Covered(j, j.files[k]) && !Roomy(j)
    requires SizeOf(j, k) >= (WINDOW_ACK_SLOTS + 1) * E
    ensures Feasible(j, StartSession(destPath, j.completed, store), run)
    ensures RunReads(j, StartSession(destPath, j.completed, store), run, Sized)
    ensures After(j, StartSession(destPath, j.completed, store), run).dropped
  {
    var start := StartSession(destPath, j.completed, store);
    var t := PileUpAcks(j, destPath, store, k);
    PostMany(j, t, WINDOW_ACK_SLOTS + 1, Sized);
    ReachTrans(j, start, t, Posted(t, WINDOW_ACK_SLOTS + 1), Sized);
    run :| Leads(j, start, run, Posted(t, WINDOW_ACK_SLOTS + 1), Sized);
  }

  /** The acks that were kept have been posted; the source has taken i of them. */
  function Taken(b: Session, t: Session, i: nat): Session
    requires i <= WINDOW_ACK_SLOTS
  {
    t.(src := t.src.(acked := i * E), chan := Channels([], AcksUpTo(b, WINDOW_ACK_SLOTS)[i..]), toSrc := [], dropped := true)
  }

  /** As long as it is held back, the source takes one ack after the other. */
  lemma {:induction false} TakeMany(j: Job, b: Session, t: Session, i: nat, how: Reads)
    requires i <= WINDOW_ACK_SLOTS && t.src.phase.Streaming? && t.chan.fileAck == []
    requires |t.src.sent| - (WINDOW_ACK_SLOTS - 1) * E >= j.window
    ensures CanReach(j, Taken(b, t, 0), Taken(b, t, i), how)
  {
    if i == 0 {
      ReachNothing(j, Taken(b, t, 0), how);
    } else {
      TakeMany(j, b, t, i - 1, how);
      var s := Taken(b, t, i - 1);
      assert s.chan.windowAck[0] == AckOf(b, i * E) && s.chan.windowAck[1..] == AcksUpTo(b, WINDOW_ACK_SLOTS)[i..];
      assert s.toDst + [] == s.toDst;
      assert Apply(j, s, Source(TakeWindowAck)) == Taken(b, t, i);
      ReachMore(j, Taken(b, t, 0), s, Source(TakeWindowAck), how);
    }
  }

  const LEAP: nat := (WINDOW_ACK_SLOTS - 1) * E + 2

  /** The source has sent a window and LEAP - 1 bytes, all of it written. */
  function Leapt(j: Job, b: Session, k: nat, acks: seq<ToSrc>): Session
    requires k < |j.files| && j.window > 0
  {
    Fed(j, b, k, j.window - 1, j.window - 1 + LEAP, acks, j.window - 1 + LEAP)
  }

  /** Of its acks, 64 are posted, and the others are lost. */
  lemma LeapOverAcks(j: Job, destPath: string, store: Store, k: nat) returns (b: Session)
    requires ValidJob(j, destPath) && k < |j.files| && !Covered(j, j.files[k])
    requires j.window > WINDOW_ACK_SLOTS * E && j.chunkSize >= LEAP && SizeOf(j, k) >= j.window + LEAP
    ensures AtFile(j, b, destPath, store, k)
    ensures CanReach(j, StartSession(destPath, j.completed, store), Taken(b, Leapt(j, b, k, []), 0), Sized)
  {
    var start := StartSession(destPath, j.completed, store);
    var n := j.window - 1;
    var last;
    b, last := FeedFile(j, destPath, store, k, n);
    var acks := AcksUpTo(b, n / E);
    var more := acks + [AckOf(b, n + LEAP)];
    FeedOne(j, b, destPath, store, k, last, n, acks, n / E * E, LEAP, Sized);
    ReachTrans(j, start, FedTo(j, b, k, last, n), Leapt(j, b, k, more), Sized);
    PostLeapt(j, b, destPath, store, k, more);
    ReachTrans(j, start, Leapt(j, b, k, more), Taken(b, Leapt(j, b, k, []), 0), Sized);
  }

  /** Of more than 64 acks the first 64 are kept. */
  lemma PostLeapt(j: Job, b: Session, destPath: string, store: Store, k: nat, acks: seq<ToSrc>)
    requires AtFile(j, b, destPath, store, k) && |acks| > WINDOW_ACK_SLOTS
    requires forall i :: 0 <= i < |acks| ==> acks[i].WindowAck?
    requires acks[..WINDOW_ACK_SLOTS] == AcksUpTo(b, WINDOW_ACK_SLOTS)
    ensures CanReach(j, Leapt(j, b, k, acks), Taken(b, Leapt(j, b, k, []), 0), Sized)
  {
    PostMany(j, Leapt(j, b, k, acks), |acks|, Sized);
    assert [] + acks[..WINDOW_ACK_SLOTS] == AcksUpTo(b, WINDOW_ACK_SLOTS)[0..];
    assert Posted(Leapt(j, b, k, acks), |acks|) == Taken(b, Leapt(j, b, k, []), 0);
  }

  /** 2^20 - 1 further bytes are not acked, and fill the window again. */
  lemma OneByteShort(j: Job, b: Session, destPath: string, store: Store, k: nat) returns (t: Session)
    requires AtFile(j, b, destPath, store, k) && j.window > WINDOW_ACK_SLOTS * E
    requires j.chunkSize >= E && SizeOf(j, k) >= j.window + LEAP + E
    ensures CanReach(j, Taken(b, Leapt(j, b, k, []), WINDOW_ACK_SLOTS), t, Sized)
    ensures Blocked(j, t) && Idle(t) && !t.dst.curBroken && t.dst.curWritten == |t.src.sent|
  {
    var s, r := Taken(b, Leapt(j, b, k, []), WINDOW_ACK_SLOTS), E - 1;
    assert AcksUpTo(b, WINDOW_ACK_SLOTS)[WINDOW_ACK_SLOTS..] == [];
    var s1 := Apply(j, s, Source(SendChunk(Zeros(r))));
    ReachByOne(j, s, Source(SendChunk(Zeros(r))), Sized);
    assert s1.toDst == [Chunk(b.src.fileID + 1, |s.src.sent|, Zeros(r), true, b.src.epoch + 1)];
    var s2 := Apply(j, s1, DeliverDst(true, r));
    ReachMore(j, s, s1, DeliverDst(true, r), Sized);
    t := Apply(j, s2, Source(ReadOn));
    ReachMore(j, s, s2, Source(ReadOn), Sized);
  }

  /** Chunks that can leap over the kept acks stall a window that outgrows the ack channel: the
      lost ack leaves the destination less than 2^20 bytes short of the next one. */
  lemma LongChunksStall(j: Job, destPath: string, store: Store, k: nat) returns (run: seq<Action>)
    requires ValidJob(j, destPath) && k < |j.files| && !Covered(j, j.files[k])
    requires j.window > WINDOW_ACK_SLOTS * E && j.chunkSize >= LEAP && SizeOf(j, k) >= j.window + LEAP + E
    ensures Feasible(j, StartSession(destPath, j.completed, store), run)
    ensures RunReads(j, StartSession(destPath, j.completed, store), run, Sized)
    ensures var s := After(j, StartSession(destPath, j.completed, store), run);
            Blocked(j, s) && Idle(s) && !s.dst.curBroken && s.dst.curWritten == |s.src.sent|
  {
    var start := StartSession(destPath, j.completed, store);
    var b := LeapOverAcks(j, destPath, store, k);
    var leapt := Leapt(j, b, k, []);
    TakeMany(j, b, leapt, WINDOW_ACK_SLOTS, Sized);
    var t := OneByteShort(j, b, destPath, store, k);
    ReachTrans(j, start, Taken(b, leapt, 0), Taken(b, leapt, WINDOW_ACK_SLOTS), Sized);
    ReachTrans(j, start, Taken(b, leapt, WINDOW_ACK_SLOTS), t, Sized);
    run :| Leads(j, start, run, t, Sized);
  }

  // ─── Exact limits ────────────────────────────────────────────────────────────

  /** A job of one file that is not covered. */
  function SmallJob(window: nat, chunkSize: nat, size: nat): Job {
    Job([Entry("a", size, 0, 0)], map[], chunkSize, window)
  }

  lemma SmallJobIsValid(window: nat, chunkSize: nat, size: nat)
    requires window > 0 && chunkSize > 0
    ensures ValidJob(SmallJob(window, chunkSize, size), "/d")
  {
    ComponentsOfRooted(["d"]);
    assert Rooted(["d"]) == "/d";
    SplitSingle("a", SLASH);
  }

  const NO_STORE := Store(map[], [], NoTail)

  ghost predicate KeepsAcks(j: Job, destPath: string, store: Store, run: seq<Action>) {
    ValidJob(j, destPath) && Feasible(j, StartSession(destPath, j.completed, store), run) ==>
      !After(j, StartSession(destPath, j.completed, store), run).dropped
  }

  /** No session with these parameters ever drops a window ack, exactly when the window is at
      most 64 acks wide, or 65 together with a chunk. */
  lemma AckQueueLimit(window: nat, chunkSize: nat)
    requires window > 0 && chunkSize > 0
    ensures (forall j: Job, destPath: string, store: Store, run: seq<Action> ::
               j.window == window && j.chunkSize == chunkSize ==> KeepsAcks(j, destPath, store, run))
            <==> window <= 64 * 0x10_0000 || window + chunkSize <= 65 * 0x10_0000
  {
    if Roomy(SmallJob(window, chunkSize, 0)) {
      forall j: Job, destPath: string, store: Store, run: seq<Action> | j.window == window && j.chunkSize == chunkSize
        ensures KeepsAcks(j, destPath, store, run)
      {
        if ValidJob(j, destPath) && Feasible(j, StartSession(destPath, j.completed, store), run) {
          StartIsInv(j, destPath, j.completed, store);
          StartIsFlow(j, destPath, j.completed, store);
          RunKeepsFlow(j, StartSession(destPath, j.completed, store), run);
        }
      }
    } else {
      var size := (WINDOW_ACK_SLOTS + 1) * E;
      var j := SmallJob(window, chunkSize, size);
      SmallJobIsValid(window, chunkSize, size);
      var run := LargeWindowDrops(j, "/d", NO_STORE, 0);
      assert !KeepsAcks(j, "/d", NO_STORE, run);
    }
  }

  /** With such reads, the run does not leave the source held back at an unbroken file with
      neither a chunk nor a larger ack under way. */
  ghost predicate KeepsMoving(j: Job, destPath: string, store: Store, run: seq<Action>, how: Reads) {
    var start := StartSession(destPath, j.completed, store);
    ValidJob(j, destPath) && Feasible(j, start, run) && RunReads(j, start, run, how) ==>
      var s := After(j, start, run);
      Blocked(j, s) && Silent(s) ==> s.dst.curBroken
  }

  lemma WithinLimitsMoves(j: Job, destPath: string, store: Store, run: seq<Action>, how: Reads)
    requires NeverStalls(j)
    ensures KeepsMoving(j, destPath, store, run, how)
  {
    if ValidJob(j, destPath) && Feasible(j, StartSession(destPath, j.completed, store), run) {
      WindowMakesProgress(j, destPath, j.completed, store, run);
    }
  }

  lemma SmallWindowStops(window: nat, chunkSize: nat) returns (j: Job, run: seq<Action>)
    requires 0 < window < E && chunkSize > 0
    ensures j.window == window && j.chunkSize == chunkSize && !KeepsMoving(j, "/d", NO_STORE, run, Full)
  {
    j := SmallJob(window, chunkSize, window);
    SmallJobIsValid(window, chunkSize, window);
    FullStopBounds(0, window, chunkSize, window);
    run := SmallWindowStalls(j, "/d", NO_STORE, 0);
  }

  /** No run of any job with these parameters stalls at an unbroken file exactly within
      NeverStalls, whether reads are free or stay within the listed size. */
  lemma WindowLimit(window: nat, chunkSize: nat, how: Reads)
    requires window > 0 && chunkSize > 0 && !how.Full?
    ensures (forall j: Job, destPath: string, store: Store, run: seq<Action> ::
               j.window == window && j.chunkSize == chunkSize ==> KeepsMoving(j, destPath, store, run, how))
            <==> && window >= 0x10_0000
                 && (|| window <= 64 * 0x10_0000
                     || window + chunkSize <= 65 * 0x10_0000
                     || chunkSize <= 63 * 0x10_0000 + 1)
  {
    if NeverStalls(SmallJob(window, chunkSize, 0)) {
      forall j: Job, destPath: string, store: Store, run: seq<Action> | j.window == window && j.chunkSize == chunkSize
        ensures KeepsMoving(j, destPath, store, run, how)
      {
        WithinLimitsMoves(j, destPath, store, run, how);
      }
    } else {
      var j, run;
      if window < E {
        j, run := SmallWindowStops(window, chunkSize);
        FullIsSized(j, StartSession("/d", j.completed, NO_STORE), run);
      } else {
        var size := window + LEAP + E;
        j := SmallJob(window, chunkSize, size);
        SmallJobIsValid(window, chunkSize, size);
        run := LongChunksStall(j, "/d", NO_STORE, 0);
      }
      AnyReadsAreFree(j, StartSession("/d", j.completed, NO_STORE), run);
      assert !KeepsMoving(j, "/d", NO_STORE, run, how);
    }
  }

  lemma {:induction false} AnyReadsAreFree(j: Job, s: Session, run: seq<Action>)
    requires Feasible(j, s, run)
    ensures RunReads(j, s, run, Free)
    decreases |run|
  {
    if run != [] {
      AnyReadsAreFree(j, Apply(j, s, run[0]), run[1..]);
    }
  }

  /** With reads that fill the buffer the limit is 2^20, at any chunk size that cannot leap over
      the kept acks. */
  lemma FullReadLimit(window: nat, chunkSize: nat)
    requires window > 0 && 0 < chunkSize && (chunkSize < LEAP || Roomy(SmallJob(window, chunkSize, 0)))
    ensures (forall j: Job, destPath: string, store: Store, run: seq<Action> ::
               j.window == window && j.chunkSize == chunkSize ==> KeepsMoving(j, destPath, store, run, Full))
            <==> window >= 0x10_0000
  {
    if window >= E {
      forall j: Job, destPath: string, store: Store, run: seq<Action> | j.window == window && j.chunkSize == chunkSize
        ensures KeepsMoving(j, destPath, store, run, Full)
      {
        WithinLimitsMoves(j, destPath, store, run, Full);
      }
    } else {
      var j, run := SmallWindowStops(window, chunkSize);
      assert !KeepsMoving(j, "/d", NO_STORE, run, Full);
    }
  }
}
