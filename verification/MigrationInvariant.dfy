/** What every step of a migration session keeps. */
module MigrationInvariant {
  import opened MigrationModel
  import opened MigrationSession

  // ─── Queues ──────────────────────────────────────────────────────────────────

  predicate Chunks(q: seq<ToDst>, fileID: nat, epoch: nat) {
    forall k :: 0 <= k < |q| ==> q[k].Chunk? && q[k].fileID == fileID && q[k].epoch == epoch
  }

  /** The rest of an attempt: chunks, and the file_done when it has been emitted. */
  predicate Body(q: seq<ToDst>, fileID: nat, epoch: nat, done: bool) {
    if done then q != [] && q[|q| - 1] == FileDone(fileID, epoch) && Chunks(q[..|q| - 1], fileID, epoch)
    else Chunks(q, fileID, epoch)
  }

  function LenOf(q: seq<ToDst>): nat {
    if q == [] then 0 else (if q[0].Chunk? then |q[0].data| else 0) + LenOf(q[1..])
  }

  lemma {:induction false} LenAppend(q: seq<ToDst>, m: ToDst)
    ensures LenOf(q + [m]) == LenOf(q) + (if m.Chunk? then |m.data| else 0)
  {
    if q == [] {
      assert q + [m] == [m] && [m][1..] == [];
    } else {
      assert (q + [m])[1..] == q[1..] + [m];
      LenAppend(q[1..], m);
    }
  }

  lemma {:induction false} LenUpdate(q: seq<ToDst>, k: nat, m: ToDst)
    requires k < |q| && q[k].Chunk? && m.Chunk?
    ensures LenOf(q[k := m]) == LenOf(q) - |q[k].data| + |m.data|
  {
    if k == 0 {
      assert q[k := m][1..] == q[1..];
    } else {
      assert q[k := m][1..] == q[1..][k - 1 := m];
      LenUpdate(q[1..], k - 1, m);
    }
  }

  // ─── Window acks ─────────────────────────────────────────────────────────────

  function AckedBy(m: ToSrc): nat {
    if m.WindowAck? then m.acked else 0
  }

  /** The acks under way are later than `acked` and WINDOW_ACK_EVERY apart. */
  predicate Spaced(acked: nat, acks: seq<ToSrc>) {
    && (forall k :: 0 <= k < |acks| ==> acks[k].WindowAck?)
    && (acks != [] ==> AckedBy(acks[0]) >= acked + WINDOW_ACK_EVERY)
    && (forall k :: 0 < k < |acks| ==> AckedBy(acks[k]) >= AckedBy(acks[k - 1]) + WINDOW_ACK_EVERY)
  }

  predicate OfAttempt(acks: seq<ToSrc>, fileID: nat, epoch: nat) {
    forall k :: 0 <= k < |acks| ==> acks[k].fileID == fileID && acks[k].epoch == epoch
  }

  function TopAck(acked: nat, acks: seq<ToSrc>): nat {
    if acks != [] then AckedBy(acks[|acks| - 1]) else acked
  }

  /** The acks between the destination and the source's counter. Unless one was dropped, the
      last of them is the destination's own counter. */
  predicate AckInv(s: Src, acks: seq<ToSrc>, d: Dst, dropped: bool) {
    && Spaced(s.acked, acks) && OfAttempt(acks, s.fileID, s.epoch)
    && TopAck(s.acked, acks) <= d.curAcked <= d.curWritten < d.curAcked + WINDOW_ACK_EVERY
    && (!dropped ==> TopAck(s.acked, acks) == d.curAcked)
  }

  // ─── Where an attempt is ─────────────────────────────────────────────────────

  predicate Closed(d: Dst) {
    d.curFileID == 0 && !d.curOpen
  }

  /** Between attempts nothing is in transit. */
  predicate Calm(s: Session) {
    s.toDst == [] && s.toSrc == [] && s.chan.fileAck == [] && Closed(s.dst)
  }

  predicate InFile(j: Job, s: Session) {
    s.src.next < |j.files| && s.src.fileID > 0
  }

  function Info(j: Job, s: Session): FileInfo
    requires InFile(j, s)
  {
    HeaderInfo(j.files[s.src.next], s.src.hashed)
  }

  predicate NoAcks(s: Session) {
    s.toSrc == [] && s.chan.windowAck == [] && s.src.acked == 0
  }

  /** The header has not been handled yet. */
  predicate HeaderOut(j: Job, s: Session, done: bool)
    requires InFile(j, s)
  {
    && s.toDst != [] && s.toDst[0] == Header(s.src.fileID, Info(j, s), s.src.epoch)
    && Body(s.toDst[1..], s.src.fileID, s.src.epoch, done)
    && Closed(s.dst) && NoAcks(s)
    && LenOf(s.toDst) == |s.src.sent|
  }

  /** The destination could not create the file. */
  predicate Refused(j: Job, s: Session, done: bool) {
    && Body(s.toDst, s.src.fileID, s.src.epoch, done)
    && Closed(s.dst) && s.dst.curBroken && NoAcks(s)
  }

  predicate OpenFile(j: Job, s: Session)
    requires InFile(j, s)
  {
    var d := s.dst;
    && d.curFileID == s.src.fileID && d.curOpen
    && d.curInfo == Info(j, s) && d.curRel == d.curInfo.path
    && d.curPath == Target(j, d.destPath, s.src.next)
    && d.curPath in s.store.disk
    && (!d.curBroken ==> s.store.disk[d.curPath] == d.curHash && |d.curHash| == d.curWritten)
  }

  /** The destination has the file open; what it has written and what is in transit is at most
      what was sent, and exactly that unless the file is broken. */
  predicate Receiving(j: Job, s: Session, done: bool)
    requires InFile(j, s)
  {
    && Body(s.toDst, s.src.fileID, s.src.epoch, done)
    && OpenFile(j, s)
    && s.dst.curWritten + LenOf(s.toDst) <= |s.src.sent|
    && (!s.dst.curBroken ==> s.dst.curWritten + LenOf(s.toDst) == |s.src.sent|)
    && AckInv(s.src, s.chan.windowAck + s.toSrc, s.dst, s.dropped)
  }

  predicate Carry(j: Job, s: Session, done: bool) {
    && InFile(j, s) && s.chan.fileAck == []
    && (HeaderOut(j, s, done) || Refused(j, s, done) || Receiving(j, s, done))
  }

  /** The verdict of this attempt is in the channel, or the last message in transit. */
  predicate Verdict(s: Session, ok: bool) {
    var m := FileAck(s.src.fileID, ok, s.src.epoch);
    if s.chan.fileAck == [] then
      && s.toSrc != [] && s.toSrc[|s.toSrc| - 1] == m
      && AckInv(s.src, s.chan.windowAck + s.toSrc[..|s.toSrc| - 1], s.dst, s.dropped)
    else
      s.chan.fileAck == [m] && s.toSrc == []
  }

  /** An accepted file is on the disk as it was hashed, with the announced size. */
  predicate Kept(j: Job, s: Session)
    requires InFile(j, s)
  {
    var path, e := Target(j, s.dst.destPath, s.src.next), j.files[s.src.next];
    path in s.store.disk && s.store.disk[path] == s.src.hashed && |s.src.hashed| == e.size == |s.src.sent|
  }

  predicate Answered(j: Job, s: Session, ok: bool) {
    && InFile(j, s) && s.toDst == [] && Closed(s.dst) && s.dst.curWritten <= |s.src.sent|
    && Verdict(s, ok) && (ok ==> Kept(j, s))
  }

  /** No verdict will come: the header was refused. */
  predicate Unanswered(j: Job, s: Session) {
    && InFile(j, s) && s.toDst == [] && Closed(s.dst) && s.dst.curBroken
    && s.toSrc == [] && s.chan.fileAck == [] && s.chan.windowAck == []
  }

  predicate Wire(j: Job, s: Session) {
    match s.src.phase
    case Listing => Calm(s)
    case Attempting(_) => Calm(s)
    case Drained(_) => Calm(s) && s.chan.windowAck == []
    case Streaming(_, _) => Carry(j, s, false)
    case Awaiting(_) => Carry(j, s, true) || Answered(j, s, true) || Answered(j, s, false) || Unanswered(j, s)
    case Finished => Calm(s)
    case Failed =>
      Calm(s) || Carry(j, s, false) || Carry(j, s, true) || Answered(j, s, true) || Answered(j, s, false) || Unanswered(j, s)
  }

  // ─── Books ───────────────────────────────────────────────────────────────────

  function SizesDone(files: seq<Entry>, outcomes: seq<Outcome>): int
    requires |outcomes| <= |files|
  {
    if outcomes == [] then 0
    else
      var n := |outcomes| - 1;
      SizesDone(files, outcomes[..n]) + (if outcomes[n].Warned? then 0 else files[n].size)
  }

  /** The files given up, in order. */
  function WarnedRels(files: seq<Entry>, outcomes: seq<Outcome>): seq<string>
    requires |outcomes| <= |files|
  {
    if outcomes == [] then []
    else
      var n := |outcomes| - 1;
      WarnedRels(files, outcomes[..n]) + (if outcomes[n].Warned? then [files[n].rel] else [])
  }

  function FilesOf(warnings: seq<Warning>): (rels: seq<string>)
    ensures |rels| == |warnings|
  {
    seq(|warnings|, k requires 0 <= k < |warnings| => warnings[k].file)
  }

  predicate Attempt(p: Phase, headers: nat) {
    match p
    case Attempting(n) => n < MAX_FILE_RETRIES && headers == n
    case Drained(n) => n < MAX_FILE_RETRIES && headers == n
    case Streaming(n, _) => n < MAX_FILE_RETRIES && headers == n + 1
    case Awaiting(n) => n < MAX_FILE_RETRIES && headers == n + 1
    case _ => headers <= MAX_FILE_RETRIES
  }

  predicate Books(j: Job, s: Src) {
    && |s.outcomes| == s.next <= |j.files|
    && (!s.phase.Listing? && !s.phase.Finished? && !s.phase.Failed? ==>
          s.next < |j.files| && s.fileID > 0 && !Covered(j, j.files[s.next]))
    && (s.phase.Finished? ==> s.next == |j.files|)
    && Attempt(s.phase, s.headers)
    && FilesOf(s.warnings) == WarnedRels(j.files, s.outcomes)
    && (forall k :: 0 <= k < s.next ==> (s.outcomes[k].Skipped? <==> Covered(j, j.files[k])))
    && s.filesCompleted + |s.warnings| == s.next
    && (match s.phase
        case Streaming(_, _) => s.startBytes == SizesDone(j.files, s.outcomes) && s.bytesTransferred == s.startBytes + |s.sent|
        case Awaiting(_) => s.startBytes == SizesDone(j.files, s.outcomes) && s.bytesTransferred == s.startBytes + |s.sent|
        case Failed => true
        case _ => s.bytesTransferred == SizesDone(j.files, s.outcomes))
    && |s.sent| - s.acked <= j.window + j.chunkSize - 1
  }

  /** Every accepted file is still on the disk. */
  predicate Files(j: Job, s: Session) {
    && |s.src.outcomes| <= |j.files|
    && forall k :: 0 <= k < |s.src.outcomes| && s.src.outcomes[k].Accepted? ==>
         var path := Target(j, s.dst.destPath, k);
         && path in s.store.disk && s.store.disk[path] == s.src.outcomes[k].content
         && |s.src.outcomes[k].content| == j.files[k].size
  }

  predicate Inv(j: Job, s: Session) {
    ValidJob(j, s.dst.destPath) && Books(j, s.src) && Files(j, s) && Wire(j, s)
  }

  // ─── The destination handles a message ───────────────────────────────────────

  lemma {:induction false} BodyTail(q: seq<ToDst>, fileID: nat, epoch: nat, done: bool)
    requires q != [] && Body(q, fileID, epoch, done) && q[0].Chunk?
    ensures Body(q[1..], fileID, epoch, done)
  {
    if done {
      assert q[1..][..|q[1..]| - 1] == q[..|q| - 1][1..];
    }
  }

  lemma HeaderArrives(j: Job, s: Session, done: bool, openOk: bool)
    requires ValidJob(j, s.dst.destPath) && InFile(j, s) && s.chan.fileAck == [] && HeaderOut(j, s, done)
    ensures var s' := Apply(j, s, DeliverDst(openOk, 0));
            Carry(j, s', done)
            && forall p :: p in s.store.disk && p != Target(j, s.dst.destPath, s.src.next) ==>
                 p in s'.store.disk && s'.store.disk[p] == s.store.disk[p]
  {
    TargetsAreDistinct(j, s.dst.destPath, s.src.next, s.src.next);
    var s' := Apply(j, s, DeliverDst(openOk, 0));
    assert s.toSrc + [] == s.toSrc;
    if openOk {
      assert s.chan.windowAck + s'.toSrc == [];
      assert Receiving(j, s', done);
    } else {
      assert Refused(j, s', done);
    }
  }

  lemma ChunkIgnored(j: Job, s: Session, done: bool, landed: nat)
    requires InFile(j, s) && s.chan.fileAck == [] && Refused(j, s, done) && s.toDst != [] && s.toDst[0].Chunk?
    requires landed <= |s.toDst[0].data|
    ensures var s' := Apply(j, s, DeliverDst(true, landed)); Refused(j, s', done) && s'.store == s.store
  {
    BodyTail(s.toDst, s.src.fileID, s.src.epoch, done);
    assert s.toSrc + [] == s.toSrc;
  }

  lemma AckJoins(s: Src, acks: seq<ToSrc>, d: Dst, dropped: bool, m: ToSrc, d': Dst)
    requires AckInv(s, acks, d, dropped)
    requires m == WindowAck(s.fileID, d'.curWritten, s.epoch)
    requires d'.curWritten >= d.curAcked + WINDOW_ACK_EVERY && d'.curAcked == d'.curWritten
    ensures AckInv(s, acks + [m], d', dropped)
  {
    var more := acks + [m];
    assert more[|acks|] == m;
    assert forall k :: 0 <= k < |acks| ==> more[k] == acks[k];
  }

  /** What a chunk does to the open file. */
  lemma ChunkWritten(d: Dst, disk: map<string, Content>, data: Content, crcOk: bool, epoch: nat, landed: nat)
    requires landed <= |data| && d.curOpen && d.curPath in disk
    requires !d.curBroken ==> disk[d.curPath] == d.curHash && |d.curHash| == d.curWritten
    requires d.curAcked <= d.curWritten < d.curAcked + WINDOW_ACK_EVERY
    ensures var (d', disk', out) := DstChunk(d, disk, d.curFileID, data, crcOk, epoch, landed);
            && d'.(curHash := d.curHash, curWritten := d.curWritten, curAcked := d.curAcked, curBroken := d.curBroken) == d
            && (d.curBroken ==> d'.curBroken)
            && d.curPath in disk'
            && (!d'.curBroken ==> disk'[d.curPath] == d'.curHash && |d'.curHash| == d'.curWritten)
            && d'.curWritten == d.curWritten + (if d'.curBroken then 0 else |data|)
            && (forall p :: p in disk && p != d.curPath ==> p in disk' && disk'[p] == disk[p])
            && (if out == [] then d'.curAcked == d.curAcked && d'.curWritten < d'.curAcked + WINDOW_ACK_EVERY
                else out == [WindowAck(d.curFileID, d'.curWritten, epoch)] && d'.curAcked == d'.curWritten
                     && d'.curWritten >= d.curAcked + WINDOW_ACK_EVERY)
  {
  }

  lemma AcksGrow(s: Src, windowAck: seq<ToSrc>, toSrc: seq<ToSrc>, d: Dst, d': Dst, dropped: bool, out: seq<ToSrc>)
    requires AckInv(s, windowAck + toSrc, d, dropped)
    requires if out == [] then d'.curAcked == d.curAcked && d.curWritten <= d'.curWritten < d'.curAcked + WINDOW_ACK_EVERY
             else out == [WindowAck(s.fileID, d'.curWritten, s.epoch)] && d'.curAcked == d'.curWritten
                  && d'.curWritten >= d.curAcked + WINDOW_ACK_EVERY
    ensures AckInv(s, windowAck + (toSrc + out), d', dropped)
  {
    if out == [] {
      assert toSrc + out == toSrc;
    } else {
      AckJoins(s, windowAck + toSrc, d, dropped, out[0], d');
      assert windowAck + (toSrc + out) == windowAck + toSrc + [out[0]];
    }
  }

  /** The session after the open file has taken a chunk. */
  function WithChunk(s: Session, landed: nat): Session
    requires s.toDst != [] && s.toDst[0].Chunk? && landed <= |s.toDst[0].data|
  {
    var m := s.toDst[0];
    var (d', disk', out) := DstChunk(s.dst, s.store.disk, m.fileID, m.data, m.crcOk, m.epoch, landed);
    s.(dst := d', store := s.store.(disk := disk'), toDst := s.toDst[1..], toSrc := s.toSrc + out)
  }

  lemma ChunkKeepsFile(j: Job, s: Session, landed: nat)
    requires InFile(j, s) && OpenFile(j, s) && s.toDst != [] && s.toDst[0].Chunk? && s.toDst[0].fileID == s.src.fileID
    requires landed <= |s.toDst[0].data| && s.dst.curAcked <= s.dst.curWritten < s.dst.curAcked + WINDOW_ACK_EVERY
    ensures OpenFile(j, WithChunk(s, landed))
    ensures var s' := WithChunk(s, landed);
            && s'.dst.curWritten + LenOf(s'.toDst) <= s.dst.curWritten + LenOf(s.toDst)
            && (!s'.dst.curBroken ==>
                  !s.dst.curBroken && s'.dst.curWritten + LenOf(s'.toDst) == s.dst.curWritten + LenOf(s.toDst))
            && forall p :: p in s.store.disk && p != s.dst.curPath ==> p in s'.store.disk && s'.store.disk[p] == s.store.disk[p]
  {
    var m := s.toDst[0];
    ChunkWritten(s.dst, s.store.disk, m.data, m.crcOk, m.epoch, landed);
    assert LenOf(s.toDst) == |m.data| + LenOf(s.toDst[1..]);
  }

  lemma ChunkKeepsAcks(j: Job, s: Session, landed: nat)
    requires InFile(j, s) && OpenFile(j, s) && s.toDst != [] && s.toDst[0].Chunk?
    requires s.toDst[0].fileID == s.src.fileID && s.toDst[0].epoch == s.src.epoch
    requires landed <= |s.toDst[0].data| && AckInv(s.src, s.chan.windowAck + s.toSrc, s.dst, s.dropped)
    ensures var s' := WithChunk(s, landed); AckInv(s'.src, s'.chan.windowAck + s'.toSrc, s'.dst, s'.dropped)
  {
    var m := s.toDst[0];
    ChunkWritten(s.dst, s.store.disk, m.data, m.crcOk, m.epoch, landed);
    var (d', disk', out) := DstChunk(s.dst, s.store.disk, m.fileID, m.data, m.crcOk, m.epoch, landed);
    AcksGrow(s.src, s.chan.windowAck, s.toSrc, s.dst, d', s.dropped, out);
  }

  lemma ChunkArrives(j: Job, s: Session, done: bool, landed: nat)
    requires InFile(j, s) && s.chan.fileAck == [] && Receiving(j, s, done) && s.toDst != [] && s.toDst[0].Chunk?
    requires landed <= |s.toDst[0].data|
    ensures var s' := WithChunk(s, landed);
            && Receiving(j, s', done)
            && forall p :: p in s.store.disk && p != s.dst.curPath ==> p in s'.store.disk && s'.store.disk[p] == s.store.disk[p]
  {
    var m := s.toDst[0];
    assert m.fileID == s.src.fileID && m.epoch == s.src.epoch;
    BodyTail(s.toDst, s.src.fileID, s.src.epoch, done);
    ChunkKeepsFile(j, s, landed);
    ChunkKeepsAcks(j, s, landed);
    assert InFile(j, WithChunk(s, landed));
  }

  lemma DoneIgnored(j: Job, s: Session)
    requires Carry(j, s, true) && Refused(j, s, true) && s.toDst == [FileDone(s.src.fileID, s.src.epoch)]
    ensures var s' := Apply(j, s, DeliverDst(true, 0)); Unanswered(j, s') && s'.store == s.store
  {
    assert s.toSrc + [] == s.toSrc;
  }

  /** What is verified is what was hashed and sent. */
  lemma VerifiedIsHashed(j: Job, s: Session)
    requires InFile(j, s) && Receiving(j, s, true) && s.toDst == [FileDone(s.src.fileID, s.src.epoch)] && Verified(s.dst)
    ensures Kept(j, s)
  {
    assert LenOf(s.toDst) == 0 by { assert s.toDst[1..] == []; }
  }

  lemma VerdictIsLast(s: Session, ok: bool, d: Dst)
    requires s.chan.fileAck == [] && AckInv(s.src, s.chan.windowAck + s.toSrc, s.dst, s.dropped)
    requires d.curAcked == s.dst.curAcked && d.curWritten == s.dst.curWritten
    ensures Verdict(s.(dst := d, toSrc := s.toSrc + [FileAck(s.src.fileID, ok, s.src.epoch)]), ok)
  {
    var m := FileAck(s.src.fileID, ok, s.src.epoch);
    assert (s.toSrc + [m])[..|s.toSrc|] == s.toSrc;
  }

  lemma DoneAnswered(j: Job, s: Session)
    requires Carry(j, s, true) && Receiving(j, s, true) && s.toDst == [FileDone(s.src.fileID, s.src.epoch)]
    ensures var s' := Apply(j, s, DeliverDst(true, 0));
            && Answered(j, s', Verified(s.dst))
            && forall p :: p in s.store.disk && p != s.dst.curPath ==> p in s'.store.disk && s'.store.disk[p] == s.store.disk[p]
  {
    var s' := Apply(j, s, DeliverDst(true, 0));
    VerdictIsLast(s, Verified(s.dst), s'.dst);
    if Verified(s.dst) {
      VerifiedIsHashed(j, s);
    }
  }

  lemma DoneArrives(j: Job, s: Session)
    requires ValidJob(j, s.dst.destPath) && Carry(j, s, true) && s.toDst != [] && s.toDst[0].FileDone?
    ensures var s' := Apply(j, s, DeliverDst(true, 0));
            && (Answered(j, s', true) || Answered(j, s', false) || Unanswered(j, s'))
            && forall p :: p in s.store.disk && p != Target(j, s.dst.destPath, s.src.next) ==>
                 p in s'.store.disk && s'.store.disk[p] == s.store.disk[p]
  {
    assert |s.toDst| == 1;
    assert s.toDst == [FileDone(s.src.fileID, s.src.epoch)];
    if Refused(j, s, true) {
      DoneIgnored(j, s);
    } else {
      DoneAnswered(j, s);
    }
  }

  /** Only the file in progress changes on the disk. */
  predicate OthersKept(j: Job, s: Session, s': Session)
    requires InFile(j, s)
  {
    forall p :: p in s.store.disk && p != Target(j, s.dst.destPath, s.src.next) ==>
      p in s'.store.disk && s'.store.disk[p] == s.store.disk[p]
  }

  /** Where an attempt may be once the destination has handled a message of it. */
  predicate Carried(j: Job, s: Session, done: bool) {
    Carry(j, s, done) || (done && (Answered(j, s, true) || Answered(j, s, false) || Unanswered(j, s)))
  }

  lemma CarryHead(j: Job, s: Session, done: bool)
    requires Carry(j, s, done) && s.toDst != []
    ensures s.toDst[0].Header? ==> HeaderOut(j, s, done)
    ensures s.toDst[0].Chunk? ==> Refused(j, s, done) || Receiving(j, s, done)
    ensures s.toDst[0].FileDone? ==> done && (Refused(j, s, done) || Receiving(j, s, done))
  {
    if !HeaderOut(j, s, done) {
      assert Body(s.toDst, s.src.fileID, s.src.epoch, done);
      if done && |s.toDst| > 1 {
        assert s.toDst[..|s.toDst| - 1][0] == s.toDst[0];
      }
    }
  }

  /** The step changes the destination, its store and the queues, and only the file in
      progress on the disk. */
  predicate DstOnly(j: Job, s: Session, s': Session)
    requires InFile(j, s)
  {
    && s'.src == s.src && s'.chan == s.chan && s'.dst.destPath == s.dst.destPath && s'.dropped == s.dropped
    && OthersKept(j, s, s')
  }

  lemma CarryHeader(j: Job, s: Session, done: bool, openOk: bool, landed: nat)
    requires ValidJob(j, s.dst.destPath) && Carry(j, s, done) && s.toDst != [] && s.toDst[0].Header?
    ensures var s' := Apply(j, s, DeliverDst(openOk, landed)); Carry(j, s', done) && DstOnly(j, s, s')
  {
    CarryHead(j, s, done);
    HeaderArrives(j, s, done, openOk);
  }

  lemma CarryChunk(j: Job, s: Session, done: bool, openOk: bool, landed: nat)
    requires Carry(j, s, done) && s.toDst != [] && s.toDst[0].Chunk? && landed <= |s.toDst[0].data|
    ensures var s' := Apply(j, s, DeliverDst(openOk, landed)); Carry(j, s', done) && DstOnly(j, s, s')
  {
    CarryHead(j, s, done);
    if Receiving(j, s, done) {
      ChunkArrives(j, s, done, landed);
      assert Apply(j, s, DeliverDst(openOk, landed)) == WithChunk(s, landed);
    } else {
      ChunkIgnored(j, s, done, landed);
    }
  }

  lemma CarryStep(j: Job, s: Session, done: bool, openOk: bool, landed: nat)
    requires ValidJob(j, s.dst.destPath) && Carry(j, s, done) && Enabled(j, s, DeliverDst(openOk, landed))
    ensures var s' := Apply(j, s, DeliverDst(openOk, landed)); Carried(j, s', done) && DstOnly(j, s, s')
  {
    if s.toDst[0].Header? {
      CarryHeader(j, s, done, openOk, landed);
    } else if s.toDst[0].Chunk? {
      CarryChunk(j, s, done, openOk, landed);
    } else {
      CarryHead(j, s, done);
      DoneArrives(j, s);
    }
  }

  lemma DiskKeepsFiles(j: Job, s: Session, s': Session)
    requires ValidJob(j, s.dst.destPath) && Files(j, s) && Books(j, s.src) && InFile(j, s) && OthersKept(j, s, s')
    requires s'.src == s.src && s'.dst.destPath == s.dst.destPath
    ensures Files(j, s')
  {
    forall k | 0 <= k < |s.src.outcomes| && s.src.outcomes[k].Accepted?
      ensures Target(j, s.dst.destPath, k) != Target(j, s.dst.destPath, s.src.next)
    {
      TargetsAreDistinct(j, s.dst.destPath, k, s.src.next);
    }
  }

  lemma CarriedIsWire(j: Job, s: Session, done: bool)
    requires Carried(j, s, done)
    requires s.src.phase.Failed? || (if done then s.src.phase.Awaiting? else s.src.phase.Streaming?)
    ensures Wire(j, s)
  {
  }

  lemma DeliverDstKeepsInv(j: Job, s: Session, openOk: bool, landed: nat)
    requires Inv(j, s) && Enabled(j, s, DeliverDst(openOk, landed))
    ensures Inv(j, Apply(j, s, DeliverDst(openOk, landed)))
  {
    var s' := Apply(j, s, DeliverDst(openOk, landed));
    assert Carry(j, s, false) || Carry(j, s, true);
    var done := if s.src.phase.Streaming? then false else if s.src.phase.Awaiting? then true else Carry(j, s, true);
    assert Carry(j, s, done);
    CarryStep(j, s, done, openOk, landed);
    DiskKeepsFiles(j, s, s');
    CarriedIsWire(j, s', done);
  }

  // ─── Acks reach the source ───────────────────────────────────────────────────

  lemma SpacedTops(acked: nat, acks: seq<ToSrc>, k: nat)
    requires Spaced(acked, acks) && k < |acks|
    ensures AckedBy(acks[k]) <= TopAck(acked, acks)
    ensures AckedBy(acks[k]) >= acked + (k + 1) * WINDOW_ACK_EVERY
    decreases |acks|
  {
    if |acks| == 1 {
    } else if k < |acks| - 1 {
      SpacedTops(acked, acks[..|acks| - 1], k);
      assert AckedBy(acks[|acks| - 1]) >= AckedBy(acks[|acks| - 2]) + WINDOW_ACK_EVERY;
    } else {
      SpacedTops(acked, acks[..k], k - 1);
      assert AckedBy(acks[k]) >= AckedBy(acks[k - 1]) + WINDOW_ACK_EVERY;
    }
  }

  lemma RemoveKeepsSpaced(acked: nat, acks: seq<ToSrc>, n: nat)
    requires Spaced(acked, acks) && n < |acks|
    ensures var left := acks[..n] + acks[n + 1..];
            Spaced(acked, left) && TopAck(acked, left) <= TopAck(acked, acks)
  {
    var left := acks[..n] + acks[n + 1..];
    forall k | 0 <= k < |left|
      ensures left[k].WindowAck?
      ensures AckedBy(left[k]) >= (if k == 0 then acked else AckedBy(left[k - 1])) + WINDOW_ACK_EVERY
    {
      if k < n {
        assert left[k] == acks[k];
        if k > 0 {
          assert left[k - 1] == acks[k - 1];
        }
      } else {
        assert left[k] == acks[k + 1];
        assert AckedBy(acks[k + 1]) >= AckedBy(acks[k]) + WINDOW_ACK_EVERY;
        if k > 0 {
          assert left[k - 1] == if k == n then acks[k - 1] else acks[k];
          assert AckedBy(acks[k]) >= AckedBy(acks[k - 1]) + WINDOW_ACK_EVERY;
        }
      }
    }
    if left != [] {
      assert left[|left| - 1] == if n == |acks| - 1 then acks[n - 1] else acks[|acks| - 1];
    }
  }

  /** A dropped ack leaves the others spaced. */
  lemma DropKeepsAcks(s: Src, queued: seq<ToSrc>, q: seq<ToSrc>, d: Dst, dropped: bool)
    requires AckInv(s, queued + q, d, dropped) && q != []
    ensures AckInv(s, queued + q[1..], d, true)
  {
    var before, after := queued + q, queued + q[1..];
    RemoveKeepsSpaced(s.acked, before, |queued|);
    assert after == before[..|queued|] + before[|queued| + 1..];
    assert forall k :: 0 <= k < |after| ==> after[k] == before[if k < |queued| then k else k + 1];
  }

  lemma PostKeepsAcks(s: Src, c: Channels, q: seq<ToSrc>, d: Dst, dropped: bool)
    requires AckInv(s, c.windowAck + q, d, dropped) && q != []
    ensures AckInv(s, Post(c, q[0]).windowAck + q[1..], d, dropped || Drops(c, q[0]))
    ensures Post(c, q[0]).fileAck == c.fileAck
  {
    assert (c.windowAck + q)[|c.windowAck|] == q[0];
    if Drops(c, q[0]) {
      DropKeepsAcks(s, c.windowAck, q, d, dropped);
    } else {
      assert c.windowAck + [q[0]] + q[1..] == c.windowAck + q;
    }
  }

  lemma CarryPosts(j: Job, s: Session, done: bool)
    requires Carry(j, s, done) && s.toSrc != []
    ensures Carry(j, Apply(j, s, DeliverSrc), done)
  {
    PostKeepsAcks(s.src, s.chan, s.toSrc, s.dst, s.dropped);
    var s' := Apply(j, s, DeliverSrc);
    assert OpenFile(j, s');
    assert Receiving(j, s', done);
  }

  lemma AnsweredPosts(j: Job, s: Session, ok: bool)
    requires Answered(j, s, ok) && s.toSrc != []
    ensures Answered(j, Apply(j, s, DeliverSrc), ok)
  {
    var n := |s.toSrc| - 1;
    var windows := s.toSrc[..n];
    if n > 0 {
      PostKeepsAcks(s.src, s.chan, windows, s.dst, s.dropped);
      assert windows[0] == s.toSrc[0];
      assert s.toSrc[1..][..n - 1] == windows[1..];
    } else {
      assert s.toSrc == [FileAck(s.src.fileID, ok, s.src.epoch)];
    }
  }

  lemma DeliverSrcKeepsInv(j: Job, s: Session)
    requires Inv(j, s) && Enabled(j, s, DeliverSrc)
    ensures Inv(j, Apply(j, s, DeliverSrc))
  {
    if Carry(j, s, false) {
      CarryPosts(j, s, false);
    }
    if Carry(j, s, true) {
      CarryPosts(j, s, true);
    }
    if Answered(j, s, true) {
      AnsweredPosts(j, s, true);
    }
    if Answered(j, s, false) {
      AnsweredPosts(j, s, false);
    }
  }

  // ─── Damage in transit ───────────────────────────────────────────────────────

  lemma BodyDamaged(q: seq<ToDst>, k: nat, m: ToDst, fileID: nat, epoch: nat, done: bool)
    requires Body(q, fileID, epoch, done) && k < |q| && q[k].Chunk?
    requires m.Chunk? && m.fileID == q[k].fileID && m.epoch == q[k].epoch
    ensures Body(q[k := m], fileID, epoch, done)
  {
    if done {
      assert q[k := m][..|q| - 1] == q[..|q| - 1][k := m];
    }
  }

  lemma CorruptKeepsInv(j: Job, s: Session, k: nat, data: Content, crcOk: bool)
    requires Inv(j, s) && Enabled(j, s, Corrupt(k, data, crcOk))
    ensures Inv(j, Apply(j, s, Corrupt(k, data, crcOk)))
  {
    var m := s.toDst[k].(data := data, crcOk := crcOk);
    var s' := Apply(j, s, Corrupt(k, data, crcOk));
    LenUpdate(s.toDst, k, m);
    forall done | Carry(j, s, done) ensures Carry(j, s', done) {
      if HeaderOut(j, s, done) {
        BodyDamaged(s.toDst[1..], k - 1, m, s.src.fileID, s.src.epoch, done);
        assert s'.toDst[1..] == s.toDst[1..][k - 1 := m];
      } else {
        BodyDamaged(s.toDst, k, m, s.src.fileID, s.src.epoch, done);
      }
    }
    assert Carry(j, s, false) || Carry(j, s, true);
  }
}
