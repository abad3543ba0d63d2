/** How a session's reads go, and runs that feed one file to the destination. */
module MigrationReads {
  import opened MigrationModel
  import opened MigrationSession

  const E: nat := WINDOW_ACK_EVERY

  // ─── Runs by their reads ─────────────────────────────────────────────────────

  /** Any reads; reads within the listed size; or reads that fill the buffer as long as the
      listed size lasts, and an end of file only there. */
  datatype Reads = Free | Sized | Full

  predicate ReadsAs(j: Job, s: Session, a: Action, how: Reads) {
    if how.Free? || !a.Source? || !(a.step.SendChunk? || a.step.EndOfFile?) then true
    else
      && s.src.next < |j.files|
      && var left := j.files[s.src.next].size - |s.src.sent|;
         match a.step
         case SendChunk(data) => if how.Sized? then |data| <= left else |data| == Least(j.chunkSize, left)
         case EndOfFile => how.Full? ==> left == 0
  }

  function Least(a: int, b: int): int {
    if a <= b then a else b
  }

  predicate RunReads(j: Job, s: Session, run: seq<Action>, how: Reads)
    requires Feasible(j, s, run)
    decreases |run|
  {
    run == [] || (ReadsAs(j, s, run[0], how) && RunReads(j, Apply(j, s, run[0]), run[1..], how))
  }

  /** Every file that the destination is to create is created. */
  predicate Opens(run: seq<Action>) {
    forall k :: 0 <= k < |run| && run[k].DeliverDst? ==> run[k].openOk
  }

  lemma {:induction false} FullIsSized(j: Job, s: Session, run: seq<Action>)
    requires Feasible(j, s, run) && RunReads(j, s, run, Full)
    ensures RunReads(j, s, run, Sized)
    decreases |run|
  {
    if run != [] {
      FullIsSized(j, Apply(j, s, run[0]), run[1..]);
    }
  }

  /** From s to t: a run with the given reads that opens every file. */
  ghost predicate Leads(j: Job, s: Session, run: seq<Action>, t: Session, how: Reads) {
    Feasible(j, s, run) && After(j, s, run) == t && RunReads(j, s, run, how) && Opens(run)
  }

  lemma {:induction false} LeadsOn(j: Job, s: Session, r1: seq<Action>, t: Session, r2: seq<Action>, u: Session, how: Reads)
    requires Leads(j, s, r1, t, how) && Leads(j, t, r2, u, how)
    ensures Leads(j, s, r1 + r2, u, how)
    decreases |r1|
  {
    if r1 == [] {
      assert r1 + r2 == r2;
    } else {
      var rest := r1[1..];
      assert (r1 + r2)[0] == r1[0] && (r1 + r2)[1..] == rest + r2;
      assert forall k :: 0 <= k < |rest| ==> rest[k] == r1[k + 1];
      LeadsOn(j, Apply(j, s, r1[0]), rest, t, r2, u, how);
      assert forall k :: 0 <= k < |r1 + r2| ==> (r1 + r2)[k] == if k < |r1| then r1[k] else r2[k - |r1|];
    }
  }

  /** Some run with the given reads leads from s to t. */
  ghost predicate CanReach(j: Job, s: Session, t: Session, how: Reads) {
    exists run: seq<Action> :: Leads(j, s, run, t, how)
  }

  lemma ReachNothing(j: Job, s: Session, how: Reads)
    ensures CanReach(j, s, s, how)
  {
    assert Leads(j, s, [], s, how);
  }

  lemma ReachTrans(j: Job, s: Session, t: Session, u: Session, how: Reads)
    requires CanReach(j, s, t, how) && CanReach(j, t, u, how)
    ensures CanReach(j, s, u, how)
  {
    var r1: seq<Action> :| Leads(j, s, r1, t, how);
    var r2: seq<Action> :| Leads(j, t, r2, u, how);
    LeadsOn(j, s, r1, t, r2, u, how);
  }

  lemma ReachSized(j: Job, s: Session, t: Session)
    requires CanReach(j, s, t, Full)
    ensures CanReach(j, s, t, Sized)
  {
    var run: seq<Action> :| Leads(j, s, run, t, Full);
    FullIsSized(j, s, run);
    assert Leads(j, s, run, t, Sized);
  }

  /** An action that a run with these reads may take. */
  predicate Allowed(j: Job, s: Session, a: Action, how: Reads) {
    Enabled(j, s, a) && ReadsAs(j, s, a, how) && (a.DeliverDst? ==> a.openOk)
  }

  lemma ReachByOne(j: Job, s: Session, a: Action, how: Reads)
    requires Allowed(j, s, a, how)
    ensures CanReach(j, s, Apply(j, s, a), how)
  {
    var t := Apply(j, s, a);
    assert [a][1..] == [];
    assert Feasible(j, t, []) && After(j, t, []) == t && RunReads(j, t, [], how);
    assert Leads(j, s, [a], t, how);
  }

  /** One action more. */
  lemma ReachMore(j: Job, s: Session, t: Session, a: Action, how: Reads)
    requires CanReach(j, s, t, how) && Allowed(j, t, a, how)
    ensures CanReach(j, s, Apply(j, t, a), how)
  {
    ReachByOne(j, t, a, how);
    ReachTrans(j, s, t, Apply(j, t, a), how);
  }

  // ─── Reaching a file ─────────────────────────────────────────────────────────

  /** The source is about to turn to file k; nothing has been sent yet. */
  predicate AtFile(j: Job, b: Session, destPath: string, store: Store, k: nat) {
    && ValidJob(j, destPath) && k < |j.files|
    && b.src.phase == Listing && b.src.next == k
    && b.chan == Channels([], []) && b.toDst == [] && b.toSrc == []
    && b.dst == NewDst(destPath, j.completed) && b.store == store && !b.dropped
  }

  lemma SkipFile(j: Job, b: Session, destPath: string, store: Store, k: nat)
    requires AtFile(j, b, destPath, store, k) && k + 1 < |j.files| && Covered(j, j.files[k])
    ensures var t := Apply(j, b, Source(Skip));
            CanReach(j, b, t, Full) && AtFile(j, t, destPath, store, k + 1)
  {
    ReachByOne(j, b, Source(Skip), Full);
  }

  lemma MissFile(j: Job, b: Session, destPath: string, store: Store, k: nat) returns (t: Session)
    requires AtFile(j, b, destPath, store, k) && k + 1 < |j.files| && !Covered(j, j.files[k])
    ensures CanReach(j, b, t, Full) && AtFile(j, t, destPath, store, k + 1)
  {
    var s1 := Apply(j, b, Source(Begin));
    ReachByOne(j, b, Source(Begin), Full);
    var s2 := Apply(j, s1, Source(Drain));
    ReachMore(j, b, s1, Source(Drain), Full);
    t := Apply(j, s2, Source(Vanish));
    ReachMore(j, b, s2, Source(Vanish), Full);
  }

  /** The files before k are skipped when they are covered and have disappeared when not. */
  lemma {:induction false} ReachFile(j: Job, destPath: string, store: Store, k: nat) returns (b: Session)
    requires ValidJob(j, destPath) && k < |j.files|
    ensures CanReach(j, StartSession(destPath, j.completed, store), b, Full) && AtFile(j, b, destPath, store, k)
  {
    var start := StartSession(destPath, j.completed, store);
    if k == 0 {
      b := start;
      ReachNothing(j, start, Full);
    } else {
      var before := ReachFile(j, destPath, store, k - 1);
      if Covered(j, j.files[k - 1]) {
        SkipFile(j, before, destPath, store, k - 1);
        b := Apply(j, before, Source(Skip));
      } else {
        b := MissFile(j, before, destPath, store, k - 1);
      }
      ReachTrans(j, start, before, b, Full);
    }
  }

  // ─── Feeding it ──────────────────────────────────────────────────────────────

  function Zeros(n: nat): (c: Content)
    ensures |c| == n
  {
    seq(n, _ => 0)
  }

  lemma ZerosGrow(n: nat, size: nat)
    requires n <= size
    ensures Zeros(n) <= Zeros(size)
  {
  }

  function SizeOf(j: Job, k: nat): nat
    requires k < |j.files|
  {
    j.files[k].size
  }

  /** The ack of the first v bytes of the first attempt at the file after b. */
  function AckOf(b: Session, v: nat): ToSrc {
    WindowAck(b.src.fileID + 1, v, b.src.epoch + 1)
  }

  /** File k, all zeros, is being sent for the first time. The destination has written the n
      bytes that were sent, the last chunk of which began at `last`, and emitted `acks`, the
      last of them for `a` bytes; the source's dispatcher has handled none of them. */
  function Fed(j: Job, b: Session, k: nat, last: nat, n: nat, acks: seq<ToSrc>, a: nat): Session
    requires k < |j.files|
  {
    var path := Target(j, b.dst.destPath, k);
    b.(src := b.src.(phase := Streaming(0, false), fileID := b.src.fileID + 1, epoch := b.src.epoch + 1, headers := 1,
                     hashed := Zeros(SizeOf(j, k)), sent := Zeros(n), lastStart := last, acked := 0,
                     startBytes := b.src.bytesTransferred, bytesTransferred := b.src.bytesTransferred + n),
       toSrc := acks,
       dst := Dst(b.dst.destPath, b.dst.completed, b.src.fileID + 1, j.files[k].rel, path, true,
                  HeaderInfo(j.files[k], Zeros(SizeOf(j, k))), Zeros(n), n, a, false),
       store := b.store.(disk := b.store.disk[path := Zeros(n)]))
  }

  /** The source has sent the header of file k. */
  function Announced(j: Job, b: Session, k: nat): Session
    requires k < |j.files|
  {
    b.(src := Fed(j, b, k, 0, 0, [], 0).src,
       toDst := [Header(b.src.fileID + 1, HeaderInfo(j.files[k], Zeros(SizeOf(j, k))), b.src.epoch + 1)])
  }

  lemma SendFirstHeader(j: Job, b: Session, destPath: string, store: Store, k: nat, how: Reads)
    requires AtFile(j, b, destPath, store, k) && !Covered(j, j.files[k])
    ensures CanReach(j, b, Announced(j, b, k), how)
  {
    var s1 := Apply(j, b, Source(Begin));
    ReachByOne(j, b, Source(Begin), how);
    var s2 := Apply(j, s1, Source(Drain));
    ReachMore(j, b, s1, Source(Drain), how);
    ReachMore(j, b, s2, Source(SendHeader(Zeros(SizeOf(j, k)))), how);
    assert Apply(j, s2, Source(SendHeader(Zeros(SizeOf(j, k))))) == Announced(j, b, k);
  }

  lemma FirstHeader(j: Job, b: Session, destPath: string, store: Store, k: nat, how: Reads)
    requires AtFile(j, b, destPath, store, k) && !Covered(j, j.files[k])
    ensures CanReach(j, b, Fed(j, b, k, 0, 0, [], 0), how)
  {
    SendFirstHeader(j, b, destPath, store, k, how);
    TargetsAreDistinct(j, destPath, k, k);
    var s := Announced(j, b, k);
    assert Zeros(0) == [];
    ReachMore(j, b, s, DeliverDst(true, 0), how);
    assert Apply(j, s, DeliverDst(true, 0)) == Fed(j, b, k, 0, 0, [], 0);
  }

  /** From the start of the session to the open, still empty file k. */
  lemma OpenedFile(j: Job, destPath: string, store: Store, k: nat) returns (b: Session)
    requires ValidJob(j, destPath) && k < |j.files| && !Covered(j, j.files[k])
    ensures AtFile(j, b, destPath, store, k)
    ensures CanReach(j, StartSession(destPath, j.completed, store), Fed(j, b, k, 0, 0, [], 0), Full)
  {
    b := ReachFile(j, destPath, store, k);
    FirstHeader(j, b, destPath, store, k, Full);
    ReachTrans(j, StartSession(destPath, j.completed, store), b, Fed(j, b, k, 0, 0, [], 0), Full);
  }

  /** Fed, with a further chunk of r bytes under way. */
  function Sent(j: Job, b: Session, k: nat, n: nat, acks: seq<ToSrc>, a: nat, r: nat): Session
    requires k < |j.files|
  {
    var s := Fed(j, b, k, n, n, acks, a);
    s.(src := Fed(j, b, k, n, n + r, acks, a).src.(phase := Streaming(0, true)),
       toDst := [Chunk(b.src.fileID + 1, n, Zeros(r), true, b.src.epoch + 1)])
  }

  /** The source may read r bytes after n. */
  predicate MayRead(j: Job, k: nat, n: nat, r: nat, how: Reads)
    requires k < |j.files|
  {
    && 0 < r <= j.chunkSize && n < j.window
    && (how.Sized? ==> n + r <= SizeOf(j, k))
    && (how.Full? ==> r == Least(j.chunkSize, SizeOf(j, k) - n))
  }

  lemma ZerosJoin(n: nat, r: nat)
    ensures Zeros(n) + Zeros(r) == Zeros(n + r)
  {
  }

  lemma SendOne(j: Job, b: Session, destPath: string, store: Store, k: nat, last: nat, n: nat, acks: seq<ToSrc>, a: nat,
                r: nat, how: Reads)
    requires AtFile(j, b, destPath, store, k) && MayRead(j, k, n, r, how)
    ensures CanReach(j, Fed(j, b, k, last, n, acks, a), Sent(j, b, k, n, acks, a, r), how)
  {
    var s := Fed(j, b, k, last, n, acks, a);
    ZerosJoin(n, r);
    ReachByOne(j, s, Source(SendChunk(Zeros(r))), how);
    assert Apply(j, s, Source(SendChunk(Zeros(r)))) == Sent(j, b, k, n, acks, a, r);
  }

  /** The session after one more chunk has been written. */
  function Fuller(j: Job, b: Session, k: nat, n: nat, acks: seq<ToSrc>, a: nat, r: nat): Session
    requires k < |j.files|
  {
    if n + r - a >= E then Fed(j, b, k, n, n + r, acks + [AckOf(b, n + r)], n + r) else Fed(j, b, k, n, n + r, acks, a)
  }

  lemma WriteOne(j: Job, b: Session, destPath: string, store: Store, k: nat, n: nat, acks: seq<ToSrc>, a: nat, r: nat,
                 how: Reads)
    requires AtFile(j, b, destPath, store, k) && a <= n < a + E
    ensures CanReach(j, Sent(j, b, k, n, acks, a, r), Fuller(j, b, k, n, acks, a, r), how)
  {
    var s := Sent(j, b, k, n, acks, a, r);
    var path := Target(j, destPath, k);
    ZerosJoin(n, r);
    assert acks + [] == acks;
    var t := Apply(j, s, DeliverDst(true, r));
    assert t.store.disk == store.disk[path := Zeros(n + r)];
    ReachByOne(j, s, DeliverDst(true, r), how);
    ReachMore(j, s, t, Source(ReadOn), how);
    assert Apply(j, t, Source(ReadOn)) == Fuller(j, b, k, n, acks, a, r);
  }

  /** r bytes more, from the source to the destination's disk. */
  lemma FeedOne(j: Job, b: Session, destPath: string, store: Store, k: nat, last: nat, n: nat, acks: seq<ToSrc>, a: nat,
                r: nat, how: Reads)
    requires AtFile(j, b, destPath, store, k) && MayRead(j, k, n, r, how) && a <= n < a + E
    ensures CanReach(j, Fed(j, b, k, last, n, acks, a), Fuller(j, b, k, n, acks, a, r), how)
  {
    SendOne(j, b, destPath, store, k, last, n, acks, a, r, how);
    WriteOne(j, b, destPath, store, k, n, acks, a, r, how);
    ReachTrans(j, Fed(j, b, k, last, n, acks, a), Sent(j, b, k, n, acks, a, r), Fuller(j, b, k, n, acks, a, r), how);
  }

  // ─── Acks delivered and taken ────────────────────────────────────────────────

  function Posted(s: Session, n: nat): Session
    requires n <= |s.toSrc| && |s.chan.windowAck| <= WINDOW_ACK_SLOTS
  {
    var room := WINDOW_ACK_SLOTS - |s.chan.windowAck|;
    s.(chan := s.chan.(windowAck := s.chan.windowAck + s.toSrc[..Least(n, room)]), toSrc := s.toSrc[n..],
       dropped := s.dropped || n > room)
  }

  /** The source's dispatcher posts n acks while the source does nothing. */
  lemma {:induction false} PostMany(j: Job, s: Session, n: nat, how: Reads)
    requires n <= |s.toSrc| && |s.chan.windowAck| <= WINDOW_ACK_SLOTS
    requires forall i :: 0 <= i < n ==> s.toSrc[i].WindowAck?
    ensures CanReach(j, s, Posted(s, n), how)
  {
    if n == 0 {
      assert Posted(s, 0) == s;
      ReachNothing(j, s, how);
    } else {
      PostMany(j, s, n - 1, how);
      var t := Posted(s, n - 1);
      assert t.toSrc[0] == s.toSrc[n - 1] && t.toSrc[1..] == s.toSrc[n..];
      assert Apply(j, t, DeliverSrc) == Posted(s, n);
      ReachMore(j, s, t, DeliverSrc, how);
    }
  }
}
