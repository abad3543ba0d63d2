/** Window flow control of a migration: when acks are lost, and when the source stalls. */
module MigrationFlow {
  import opened MigrationModel
  import opened MigrationSession
  import opened MigrationInvariant
  import opened MigrationSteps

  // ─── How far apart acks are from the window's edge ───────────────────────────

  /** The length of the last chunk in the queue; 0 when there is none. */
  function LastLen(q: seq<ToDst>): nat {
    if q == [] then 0
    else if q[|q| - 1].Chunk? then |q[|q| - 1].data|
    else LastLen(q[..|q| - 1])
  }

  predicate HasChunk(q: seq<ToDst>) {
    exists k :: 0 <= k < |q| && q[k].Chunk?
  }

  lemma {:induction false} LastLenCounts(q: seq<ToDst>)
    ensures LastLen(q) <= LenOf(q)
  {
    if q != [] {
      var n := |q| - 1;
      LastLenCounts(q[..n]);
      LenAppend(q[..n], q[n]);
      assert q[..n] + [q[n]] == q;
    }
  }

  lemma {:induction false} LastLenOfTail(q: seq<ToDst>)
    requires q != [] && HasChunk(q[1..])
    ensures LastLen(q[1..]) == LastLen(q)
  {
    var n := |q| - 1;
    assert q[1..][|q[1..]| - 1] == q[n];
    if !q[n].Chunk? {
      assert q[1..][..n - 1] == q[..n][1..];
      var k :| 0 <= k < |q[1..]| && q[1..][k].Chunk?;
      assert q[..n][1..][k].Chunk?;
      LastLenOfTail(q[..n]);
    }
  }

  lemma {:induction false} LastLenOfUpdate(q: seq<ToDst>, k: nat, m: ToDst)
    requires k < |q| && q[k].Chunk? && m.Chunk? && |m.data| == |q[k].data|
    ensures LastLen(q[k := m]) == LastLen(q)
  {
    var n := |q| - 1;
    if !q[n].Chunk? {
      assert q[k := m][..n] == q[..n][k := m];
      LastLenOfUpdate(q[..n], k, m);
    }
  }

  /** The window acks that have not been consumed. */
  function WindowsIn(queued: seq<ToSrc>, q: seq<ToSrc>): seq<ToSrc> {
    queued + (if q != [] && q[|q| - 1].FileAck? then q[..|q| - 1] else q)
  }

  function Windows(s: Session): seq<ToSrc> {
    WindowsIn(s.chan.windowAck, s.toSrc)
  }

  /** All acks but the last confirm less than a window beyond `acked`. */
  predicate Staggered(acked: nat, acks: seq<ToSrc>, window: nat) {
    forall k :: 0 <= k < |acks| - 1 ==> AckedBy(acks[k]) < acked + window
  }

  /** The last chunk began inside the window, and is the last chunk in the queue if any is. */
  predicate LastChunkInv(q: seq<ToDst>, s: Src, window: nat) {
    && (s.sent != [] ==> s.lastStart < s.acked + window && s.lastStart < |s.sent|)
    && (HasChunk(q) ==> s.sent != [] && LastLen(q) == |s.sent| - s.lastStart)
  }

  predicate FlowInv(j: Job, s: Session) {
    LastChunkInv(s.toDst, s.src, j.window) && Staggered(s.src.acked, Windows(s), j.window)
  }

  lemma StartIsFlow(j: Job, destPath: string, completed: map<string, FileInfo>, store: Store)
    ensures FlowInv(j, StartSession(destPath, completed, store))
  {
  }

  lemma QueueEnd(q: seq<ToDst>, m: ToDst)
    ensures m.Chunk? ==> LastLen(q + [m]) == |m.data|
    ensures !m.Chunk? ==> LastLen(q + [m]) == LastLen(q) && (HasChunk(q + [m]) ==> HasChunk(q))
  {
    assert (q + [m])[..|q|] == q;
    if !m.Chunk? && HasChunk(q + [m]) {
      var k :| 0 <= k < |q + [m]| && (q + [m])[k].Chunk?;
      assert q[k].Chunk?;
    }
  }

  lemma EmitKeepsFlow(j: Job, s: Session, a: SrcStep)
    requires FlowInv(j, s) && Enabled(j, s, Source(a)) && (a.SendChunk? || a.EndOfFile?)
    ensures FlowInv(j, Apply(j, s, Source(a)))
  {
    QueueEnd(s.toDst, StepSrc(j, s.src, s.chan, a).2[0]);
  }

  lemma HeaderKeepsFlow(j: Job, s: Session, content: Content)
    requires Inv(j, s) && FlowInv(j, s) && Enabled(j, s, Source(SendHeader(content)))
    ensures FlowInv(j, Apply(j, s, Source(SendHeader(content))))
  {
    QueueEnd(s.toDst, Header(s.src.fileID, HeaderInfo(j.files[s.src.next], content), s.src.epoch + 1));
  }

  lemma WindowsAfterTake(s: Session)
    requires s.chan.windowAck != []
    ensures Windows(s) != [] && Windows(s)[0] == s.chan.windowAck[0]
    ensures Windows(s.(chan := s.chan.(windowAck := s.chan.windowAck[1..]))) == Windows(s)[1..]
  {
  }

  lemma WindowsAfterOut(queued: seq<ToSrc>, q: seq<ToSrc>, out: seq<ToSrc>)
    requires forall k :: 0 <= k < |q| ==> q[k].WindowAck?
    requires |out| <= 1
    ensures WindowsIn(queued, q + out)
            == if out != [] && out[0].WindowAck? then WindowsIn(queued, q) + out else WindowsIn(queued, q)
  {
    if out == [] {
      assert q + out == q;
    } else {
      assert (q + out)[..|q|] == q;
      assert queued + (q + out) == queued + q + out;
    }
  }

  lemma TakeAckKeepsFlow(j: Job, s: Session)
    requires Inv(j, s) && FlowInv(j, s) && Enabled(j, s, Source(TakeWindowAck))
    ensures FlowInv(j, Apply(j, s, Source(TakeWindowAck)))
  {
    var s' := Apply(j, s, Source(TakeWindowAck));
    assert s'.toDst == s.toDst by { assert s.toDst + [] == s.toDst; }
    WindowsAfterTake(s);
    assert Windows(s') == Windows(s.(chan := s'.chan));
    TailIsStaggered(s.src.acked, Windows(s), s'.src.acked, j.window);
  }

  lemma TailIsStaggered(acked: nat, acks: seq<ToSrc>, acked': nat, window: nat)
    requires Staggered(acked, acks, window) && acks != [] && acked' >= acked
    ensures Staggered(acked', acks[1..], window)
  {
    assert forall k :: 0 <= k < |acks[1..]| ==> acks[1..][k] == acks[k + 1];
  }

  lemma OtherKeepsFlow(j: Job, s: Session, a: SrcStep)
    requires FlowInv(j, s) && Enabled(j, s, Source(a)) && (a.Drain? ==> s.toSrc == [])
    requires !a.SendHeader? && !a.TakeWindowAck? && !a.SendChunk? && !a.EndOfFile?
    ensures FlowInv(j, Apply(j, s, Source(a)))
  {
    assert s.toDst + [] == s.toDst;
  }

  lemma SourceKeepsFlow(j: Job, s: Session, a: SrcStep)
    requires Inv(j, s) && FlowInv(j, s) && Enabled(j, s, Source(a))
    ensures FlowInv(j, Apply(j, s, Source(a)))
  {
    match a {
      case SendHeader(content) => HeaderKeepsFlow(j, s, content);
      case TakeWindowAck => TakeAckKeepsFlow(j, s);
      case SendChunk(_) => EmitKeepsFlow(j, s, a);
      case EndOfFile => EmitKeepsFlow(j, s, a);
      case _ => OtherKeepsFlow(j, s, a);
    }
  }

  lemma NewAckIsStaggered(acked: nat, acks: seq<ToSrc>, m: ToSrc, window: nat)
    requires Staggered(acked, acks, window) && TopAck(acked, acks) < acked + window
    ensures Staggered(acked, acks + [m], window)
  {
  }

  lemma TailKeepsLast(q: seq<ToDst>, s: Src, window: nat)
    requires LastChunkInv(q, s, window) && q != []
    ensures LastChunkInv(q[1..], s, window)
  {
    if HasChunk(q[1..]) {
      LastLenOfTail(q);
      var k :| 0 <= k < |q[1..]| && q[1..][k].Chunk?;
      assert q[k + 1].Chunk?;
    }
  }

  lemma HandleOut(d: Dst, store: Store, m: ToDst, openOk: bool, landed: nat)
    requires m.Chunk? ==> landed <= |m.data|
    ensures var out := Handle(d, store, m, openOk, landed).2;
            && |out| <= 1
            && (out != [] && out[0].WindowAck? ==> m.Chunk? && d.curFileID == m.fileID && d.curOpen)
  {
  }

  lemma OutKeepsWindows(j: Job, s: Session, out: seq<ToSrc>)
    requires Inv(j, s) && FlowInv(j, s) && s.toDst != [] && |out| <= 1
    requires out != [] && out[0].WindowAck? ==>
               s.toDst[0].Chunk? && s.dst.curFileID == s.toDst[0].fileID && s.dst.curOpen
    ensures Staggered(s.src.acked, WindowsIn(s.chan.windowAck, s.toSrc + out), j.window)
  {
    CarriesSomething(j, s);
    WindowsOfCarry(j, s, Carry(j, s, true));
    WindowsAfterOut(s.chan.windowAck, s.toSrc, out);
    if out != [] && out[0].WindowAck? {
      AckedBeforeLastChunk(j, s);
      NewAckIsStaggered(s.src.acked, Windows(s), out[0], j.window);
    }
  }

  lemma DeliveryKeepsWindows(j: Job, s: Session, openOk: bool, landed: nat)
    requires Inv(j, s) && FlowInv(j, s) && Enabled(j, s, DeliverDst(openOk, landed))
    ensures Staggered(s.src.acked, Windows(Apply(j, s, DeliverDst(openOk, landed))), j.window)
  {
    HandleOut(s.dst, s.store, s.toDst[0], openOk, landed);
    OutKeepsWindows(j, s, Handle(s.dst, s.store, s.toDst[0], openOk, landed).2);
  }

  lemma CarriesSomething(j: Job, s: Session)
    requires Inv(j, s) && s.toDst != []
    ensures Carry(j, s, Carry(j, s, true))
  {
  }

  lemma DeliveryKeepsFlow(j: Job, s: Session, openOk: bool, landed: nat)
    requires Inv(j, s) && FlowInv(j, s) && Enabled(j, s, DeliverDst(openOk, landed))
    ensures FlowInv(j, Apply(j, s, DeliverDst(openOk, landed)))
  {
    DeliveryKeepsWindows(j, s, openOk, landed);
    TailKeepsLast(s.toDst, s.src, j.window);
  }

  lemma WindowsOfCarry(j: Job, s: Session, done: bool)
    requires Carry(j, s, done)
    ensures Windows(s) == s.chan.windowAck + s.toSrc
    ensures forall k :: 0 <= k < |s.toSrc| ==> s.toSrc[k].WindowAck?
  {
    if Receiving(j, s, done) {
      var acks := s.chan.windowAck + s.toSrc;
      forall k | 0 <= k < |s.toSrc| ensures s.toSrc[k].WindowAck? {
        assert acks[|s.chan.windowAck| + k] == s.toSrc[k];
      }
    }
  }

  /** When a chunk is handled, what was acked before it lies before the last chunk sent. */
  lemma AckedBeforeLastChunk(j: Job, s: Session)
    requires Inv(j, s) && FlowInv(j, s) && s.toDst != [] && s.toDst[0].Chunk?
    requires s.dst.curFileID == s.toDst[0].fileID && s.dst.curOpen
    ensures Carry(j, s, Carry(j, s, true))
    ensures TopAck(s.src.acked, s.chan.windowAck + s.toSrc) < s.src.acked + j.window
  {
    var done := Carry(j, s, true);
    assert Carry(j, s, done);
    CarryHead(j, s, done);
    assert Receiving(j, s, done);
    assert HasChunk(s.toDst);
    LastLenCounts(s.toDst);
  }

  lemma FirstIsWindow(s: Src, queued: seq<ToSrc>, q: seq<ToSrc>, d: Dst, dropped: bool)
    requires AckInv(s, queued + q, d, dropped) && q != []
    ensures q[0].WindowAck?
  {
    assert (queued + q)[|queued|] == q[0];
  }

  /** A verdict in transit is the last message. */
  lemma FileAckIsLast(j: Job, s: Session)
    requires Inv(j, s) && s.toSrc != [] && s.toSrc[0].FileAck?
    ensures |s.toSrc| == 1
  {
    var n := |s.toSrc| - 1;
    if Answered(j, s, true) || Answered(j, s, false) {
      if n > 0 {
        FirstIsWindow(s.src, s.chan.windowAck, s.toSrc[..n], s.dst, s.dropped);
      }
    } else {
      WindowsOfCarry(j, s, Carry(j, s, true));
    }
  }

  lemma WithoutOne(acked: nat, acks: seq<ToSrc>, n: nat, window: nat)
    requires Staggered(acked, acks, window) && n < |acks|
    ensures Staggered(acked, acks[..n] + acks[n + 1..], window)
  {
    var rest := acks[..n] + acks[n + 1..];
    assert forall k :: 0 <= k < |rest| ==> rest[k] == acks[if k < n then k else k + 1];
  }

  lemma PostedWindows(s: Session)
    requires s.toSrc != [] && s.toSrc[0].WindowAck?
    ensures var n := |s.chan.windowAck|;
            var s' := s.(chan := Post(s.chan, s.toSrc[0]), toSrc := s.toSrc[1..]);
            && n < |Windows(s)|
            && Windows(s') == if Drops(s.chan, s.toSrc[0]) then Windows(s)[..n] + Windows(s)[n + 1..] else Windows(s)
  {
  }

  lemma DeliverSrcKeepsFlow(j: Job, s: Session)
    requires Inv(j, s) && FlowInv(j, s) && s.toSrc != []
    ensures FlowInv(j, Apply(j, s, DeliverSrc))
  {
    if s.toSrc[0].FileAck? {
      FileAckIsLast(j, s);
    } else {
      PostedWindows(s);
      if Drops(s.chan, s.toSrc[0]) {
        WithoutOne(s.src.acked, Windows(s), |s.chan.windowAck|, j.window);
      }
    }
  }

  lemma CorruptKeepsFlow(j: Job, s: Session, k: nat, data: Content, crcOk: bool)
    requires FlowInv(j, s) && Enabled(j, s, Corrupt(k, data, crcOk))
    ensures FlowInv(j, Apply(j, s, Corrupt(k, data, crcOk)))
  {
    LastLenOfUpdate(s.toDst, k, s.toDst[k].(data := data, crcOk := crcOk));
    assert HasChunk(s.toDst);
  }

  lemma StepKeepsFlow(j: Job, s: Session, a: Action)
    requires Inv(j, s) && FlowInv(j, s) && Enabled(j, s, a)
    ensures FlowInv(j, Apply(j, s, a))
  {
    match a {
      case Source(step) => SourceKeepsFlow(j, s, step);
      case DeliverDst(openOk, landed) => DeliveryKeepsFlow(j, s, openOk, landed);
      case DeliverSrc => DeliverSrcKeepsFlow(j, s);
      case Corrupt(k, data, crcOk) => CorruptKeepsFlow(j, s, k, data, crcOk);
    }
  }

  // ─── When acks are dropped ───────────────────────────────────────────────────

  /** The window, with the chunk that may exceed it, holds at most 64 acks. */
  predicate Roomy(j: Job) {
    j.window <= WINDOW_ACK_SLOTS * WINDOW_ACK_EVERY
    || j.window + j.chunkSize <= (WINDOW_ACK_SLOTS + 1) * WINDOW_ACK_EVERY
  }

  lemma AcksFit(j: Job, s: Session, acks: seq<ToSrc>)
    requires Roomy(j) && AckInv(s.src, acks, s.dst, s.dropped) && Staggered(s.src.acked, acks, j.window)
    requires s.dst.curWritten <= |s.src.sent| && |s.src.sent| - s.src.acked <= j.window + j.chunkSize - 1
    ensures |acks| <= WINDOW_ACK_SLOTS
  {
    var n := |acks|;
    if n > WINDOW_ACK_SLOTS {
      SpacedTops(s.src.acked, acks, WINDOW_ACK_SLOTS);
      SpacedTops(s.src.acked, acks, WINDOW_ACK_SLOTS - 1);
    }
  }

  lemma DeliverNeverDrops(j: Job, s: Session)
    requires Roomy(j) && Inv(j, s) && FlowInv(j, s) && s.toSrc != []
    ensures !Drops(s.chan, s.toSrc[0])
  {
    if s.toSrc[0].WindowAck? {
      if Answered(j, s, true) || Answered(j, s, false) {
        AcksFit(j, s, Windows(s));
      } else {
        var done := Carry(j, s, true);
        assert Carry(j, s, done);
        WindowsOfCarry(j, s, done);
        AcksFit(j, s, Windows(s));
      }
    }
  }

  lemma {:induction false} RunKeepsFlow(j: Job, s: Session, run: seq<Action>)
    requires Inv(j, s) && FlowInv(j, s) && Feasible(j, s, run)
    ensures Inv(j, After(j, s, run)) && FlowInv(j, After(j, s, run))
    ensures Roomy(j) && !s.dropped ==> !After(j, s, run).dropped
    decreases |run|
  {
    if run != [] {
      StepKeepsInv(j, s, run[0]);
      StepKeepsFlow(j, s, run[0]);
      if Roomy(j) && run[0].DeliverSrc? {
        DeliverNeverDrops(j, s);
      }
      RunKeepsFlow(j, Apply(j, s, run[0]), run[1..]);
    }
  }

  // ─── When the source stalls ──────────────────────────────────────────────────

  /** The source is held back by the window. */
  predicate Blocked(j: Job, s: Session) {
    s.src.phase.Streaming? && !WindowOpen(j, s.src)
  }

  /** An ack that would move the source's counter is in transit or queued. */
  predicate LargerAck(s: Session) {
    exists m :: m in s.chan.windowAck + s.toSrc && m.WindowAck? && m.acked > s.src.acked
  }

  /** Nothing that could open the window is under way. */
  predicate Silent(s: Session) {
    !HasChunk(s.toDst) && !LargerAck(s)
  }

  /** Parameters under which the window always opens again: it holds an ack, and either no ack
      is ever dropped or a chunk is too short to leap over the 64 acks that are kept. */
  predicate NeverStalls(j: Job) {
    j.window >= WINDOW_ACK_EVERY && (Roomy(j) || j.chunkSize <= (WINDOW_ACK_SLOTS - 1) * WINDOW_ACK_EVERY + 1)
  }

  /** What dropped acks can hide from the source during an attempt: never so much that the
      window, measured from the last ack that was kept, lacks room for one more. */
  predicate GapInv(j: Job, s: Session) {
    s.src.phase.Streaming? && s.dst.curFileID == s.src.fileID ==>
      s.dst.curAcked <= TopAck(s.src.acked, s.chan.windowAck + s.toSrc) + (j.window - WINDOW_ACK_EVERY)
  }

  lemma SourceKeepsGap(j: Job, s: Session, a: SrcStep)
    requires Inv(j, s) && GapInv(j, s) && j.window >= WINDOW_ACK_EVERY && Enabled(j, s, Source(a))
    ensures GapInv(j, Apply(j, s, Source(a)))
  {
    match a {
      case TakeWindowAck => TakingKeepsGap(j, s);
      case SendHeader(_) => assert s.dst.curFileID == 0;
      case _ =>
    }
  }

  lemma TakingKeepsGap(j: Job, s: Session)
    requires Inv(j, s) && GapInv(j, s) && Enabled(j, s, Source(TakeWindowAck))
    ensures GapInv(j, Apply(j, s, Source(TakeWindowAck)))
  {
    if Receiving(j, s, false) {
      TopAfterTake(s.src.acked, s.chan.windowAck, s.toSrc);
    }
  }

  lemma TopAfterTake(acked: nat, queued: seq<ToSrc>, q: seq<ToSrc>)
    requires Spaced(acked, queued + q) && queued != []
    ensures queued[0].WindowAck? && queued[0].acked > acked
    ensures TopAck(queued[0].acked, queued[1..] + q) == TopAck(acked, queued + q)
  {
    var acks := queued + q;
    assert acks[0] == queued[0];
    assert queued[1..] + q == acks[1..];
  }

  lemma HandledAck(d: Dst, store: Store, m: ToDst, openOk: bool, landed: nat)
    requires m.Chunk? && landed <= |m.data|
    ensures var (d', _, out) := Handle(d, store, m, openOk, landed);
            && d'.curFileID == d.curFileID
            && (if out == [] then d'.curAcked == d.curAcked else |out| == 1 && d'.curAcked == AckedBy(out[0]))
  {
  }

  lemma ChunkKeepsGap(j: Job, s: Session, openOk: bool, landed: nat)
    requires GapInv(j, s) && j.window >= WINDOW_ACK_EVERY && Enabled(j, s, DeliverDst(openOk, landed)) && s.toDst[0].Chunk?
    ensures GapInv(j, Apply(j, s, DeliverDst(openOk, landed)))
  {
    var out := Handle(s.dst, s.store, s.toDst[0], openOk, landed).2;
    HandledAck(s.dst, s.store, s.toDst[0], openOk, landed);
    if out == [] {
      assert s.toSrc + out == s.toSrc;
    } else {
      var acks := s.chan.windowAck + (s.toSrc + out);
      assert acks[|acks| - 1] == out[0];
    }
  }

  lemma HeaderKeepsGap(j: Job, s: Session, openOk: bool, landed: nat)
    requires GapInv(j, s) && j.window >= WINDOW_ACK_EVERY && Enabled(j, s, DeliverDst(openOk, landed)) && s.toDst[0].Header?
    ensures GapInv(j, Apply(j, s, DeliverDst(openOk, landed)))
  {
    assert s.toSrc + [] == s.toSrc;
  }

  lemma DestinationKeepsGap(j: Job, s: Session, openOk: bool, landed: nat)
    requires Inv(j, s) && GapInv(j, s) && j.window >= WINDOW_ACK_EVERY && Enabled(j, s, DeliverDst(openOk, landed))
    ensures GapInv(j, Apply(j, s, DeliverDst(openOk, landed)))
  {
    if s.src.phase.Streaming? {
      CarryHead(j, s, false);
      if s.toDst[0].Header? {
        HeaderKeepsGap(j, s, openOk, landed);
      } else {
        ChunkKeepsGap(j, s, openOk, landed);
      }
    }
  }

  /** A dropped ack leaves the 64 before it, and no chunk reaches a window beyond them. */
  lemma DropKeepsGap(j: Job, s: Session)
    requires Inv(j, s) && FlowInv(j, s) && GapInv(j, s) && NeverStalls(j) && s.toSrc != []
    requires s.src.phase.Streaming? && Drops(s.chan, s.toSrc[0]) && Receiving(j, s, false)
    ensures GapInv(j, Apply(j, s, DeliverSrc))
  {
    if Roomy(j) {
      DeliverNeverDrops(j, s);
    }
    TopAfterDrop(s.src.acked, s.chan.windowAck, s.toSrc);
  }

  lemma TopAfterDrop(acked: nat, queued: seq<ToSrc>, q: seq<ToSrc>)
    requires Spaced(acked, queued + q) && q != [] && |queued| >= WINDOW_ACK_SLOTS
    ensures var top := TopAck(acked, queued + q[1..]);
            top == TopAck(acked, queued + q) || top >= acked + WINDOW_ACK_SLOTS * WINDOW_ACK_EVERY
  {
    var before, n := queued + q, |queued|;
    if |q| == 1 {
      assert queued + q[1..] == queued;
      SpacedTops(acked, before, n - 1);
      assert before[n - 1] == queued[n - 1];
    } else {
      assert (queued + q[1..])[n + |q| - 2] == before[n + |q| - 1];
    }
  }

  lemma KeptAckKeepsGap(j: Job, s: Session)
    requires GapInv(j, s) && s.toSrc != [] && s.toSrc[0].WindowAck? && !Drops(s.chan, s.toSrc[0])
    ensures GapInv(j, Apply(j, s, DeliverSrc))
  {
    assert s.chan.windowAck + [s.toSrc[0]] + s.toSrc[1..] == s.chan.windowAck + s.toSrc;
  }

  lemma PostingKeepsGap(j: Job, s: Session)
    requires Inv(j, s) && FlowInv(j, s) && GapInv(j, s) && NeverStalls(j) && s.toSrc != []
    ensures GapInv(j, Apply(j, s, DeliverSrc))
  {
    if s.src.phase.Streaming? {
      WindowsOfCarry(j, s, false);
      if Drops(s.chan, s.toSrc[0]) {
        DropKeepsGap(j, s);
      } else {
        KeptAckKeepsGap(j, s);
      }
    }
  }

  lemma {:induction false} RunKeepsGap(j: Job, s: Session, run: seq<Action>)
    requires Inv(j, s) && FlowInv(j, s) && GapInv(j, s) && NeverStalls(j) && Feasible(j, s, run)
    ensures GapInv(j, After(j, s, run))
    decreases |run|
  {
    if run != [] {
      StepKeepsInv(j, s, run[0]);
      StepKeepsFlow(j, s, run[0]);
      match run[0] {
        case Source(step) => SourceKeepsGap(j, s, step);
        case DeliverDst(openOk, landed) => DestinationKeepsGap(j, s, openOk, landed);
        case DeliverSrc => PostingKeepsGap(j, s);
        case Corrupt(_, _, _) =>
      }
      RunKeepsGap(j, Apply(j, s, run[0]), run[1..]);
    }
  }

  lemma {:induction false} NoChunksNoBytes(q: seq<ToDst>)
    requires !HasChunk(q)
    ensures LenOf(q) == 0
  {
    if q != [] {
      assert !q[0].Chunk?;
      forall k | 0 <= k < |q[1..]| ensures !q[1..][k].Chunk? {
        assert q[1..][k] == q[k + 1];
      }
      NoChunksNoBytes(q[1..]);
    }
  }

  /** At an unbroken file, a source held back by the window has a chunk or a larger ack under
      way: what is neither acked nor on the way is less than 2^20 bytes. */
  lemma BlockedIsNotSilent(j: Job, s: Session)
    requires Inv(j, s) && Blocked(j, s) && !s.dst.curBroken && j.window >= WINDOW_ACK_EVERY
    requires !s.dropped || GapInv(j, s)
    ensures HasChunk(s.toDst) || LargerAck(s)
  {
    if !HasChunk(s.toDst) {
      NoChunksNoBytes(s.toDst);
      assert Receiving(j, s, false);
      var acks := s.chan.windowAck + s.toSrc;
      assert TopAck(s.src.acked, acks) > s.src.acked;
      assert acks[|acks| - 1] in acks;
    }
  }

  /** Window progress: with a window of at least 2^20, a source held back by the window has a
      chunk or a larger ack under way, unless the destination has given the file up or an ack
      has been dropped; and within the limits of NeverStalls whether or not one has. */
  lemma WindowMakesProgress(j: Job, destPath: string, completed: map<string, FileInfo>, store: Store, run: seq<Action>)
    requires ValidJob(j, destPath) && j.window >= WINDOW_ACK_EVERY
    requires Feasible(j, StartSession(destPath, completed, store), run)
    ensures var s := After(j, StartSession(destPath, completed, store), run);
            && (Roomy(j) ==> !s.dropped)
            && (Blocked(j, s) && Silent(s) && !s.dst.curBroken ==> s.dropped && !NeverStalls(j))
  {
    StartIsInv(j, destPath, completed, store);
    StartIsFlow(j, destPath, completed, store);
    var start := StartSession(destPath, completed, store);
    RunKeepsInv(j, start, run);
    RunKeepsFlow(j, start, run);
    var s := After(j, start, run);
    if NeverStalls(j) {
      RunKeepsGap(j, start, run);
    }
    if Blocked(j, s) && !s.dst.curBroken && (!s.dropped || NeverStalls(j)) {
      BlockedIsNotSilent(j, s);
    }
  }
}
