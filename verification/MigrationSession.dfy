/** One migration session: source and destination joined by two FIFO queues. */
module MigrationSession {
  import opened Basics
  import opened Paths
  import opened MigrationModel

  datatype Session = Session(
    src: Src,
    chan: Channels,
    toDst: seq<ToDst>,
    toSrc: seq<ToSrc>,
    dst: Dst,
    store: Store,
    dropped: bool)            // a full windowAck channel has dropped an ack

  datatype Action =
    | Source(step: SrcStep)
    | DeliverDst(openOk: bool, landed: nat)   // the destination handles the head of its queue
    | DeliverSrc                              // the source's dispatcher handles the head of its queue
    | Corrupt(k: nat, data: Content, crcOk: bool)   // a chunk in transit is damaged

  /** The sessions the theorems speak about: a clean destination other than "/", files with
      distinct plain relative paths. */
  predicate ValidJob(j: Job, destPath: string) {
    && IsCleanAbs(destPath) && destPath != "/"
    && j.chunkSize > 0 && j.window > 0
    && (forall k :: 0 <= k < |j.files| ==> PlainRel(j.files[k].rel))
    && (forall k, l :: 0 <= k < l < |j.files| ==> j.files[k].rel != j.files[l].rel)
  }

  /** Damage that keeps the chunk's length, seen by the CRC or not. (The bytes of a chunk that
      fails its CRC are never read, so its length does not matter.) */
  predicate CanCorrupt(q: seq<ToDst>, k: nat, data: Content) {
    k < |q| && q[k].Chunk? && |data| == |q[k].data|
  }

  predicate Enabled(j: Job, s: Session, a: Action) {
    match a
    case Source(step) => CanStep(j, s.src, s.chan, step)
    case DeliverDst(_, landed) => s.toDst != [] && (s.toDst[0].Chunk? ==> landed <= |s.toDst[0].data|)
    case DeliverSrc => s.toSrc != []
    case Corrupt(k, data, _) => CanCorrupt(s.toDst, k, data)
  }

  /** The destination handles one message. */
  function Handle(d: Dst, store: Store, m: ToDst, openOk: bool, landed: nat): (Dst, Store, seq<ToSrc>)
    requires m.Chunk? ==> landed <= |m.data|
  {
    match m
    case Header(fileID, info, _) =>
      var (d', disk') := DstFile(d, store.disk, fileID, info, openOk);
      (d', store.(disk := disk'), [])
    case Chunk(fileID, _, data, crcOk, epoch) =>
      var (d', disk', out) := DstChunk(d, store.disk, fileID, data, crcOk, epoch, landed);
      (d', store.(disk := disk'), out)
    case FileDone(fileID, epoch) => DstFileDone(d, store, fileID, epoch)
  }

  predicate Drops(c: Channels, m: ToSrc) {
    m.WindowAck? && |c.windowAck| >= WINDOW_ACK_SLOTS
  }

  function Apply(j: Job, s: Session, a: Action): Session
    requires Enabled(j, s, a)
  {
    match a
    case Source(step) =>
      var (src, chan, out) := StepSrc(j, s.src, s.chan, step);
      s.(src := src, chan := chan, toDst := s.toDst + out)
    case DeliverDst(openOk, landed) =>
      var (dst, store, out) := Handle(s.dst, s.store, s.toDst[0], openOk, landed);
      s.(dst := dst, store := store, toDst := s.toDst[1..], toSrc := s.toSrc + out)
    case DeliverSrc =>
      s.(chan := Post(s.chan, s.toSrc[0]), toSrc := s.toSrc[1..], dropped := s.dropped || Drops(s.chan, s.toSrc[0]))
    case Corrupt(k, data, crcOk) =>
      s.(toDst := s.toDst[k := s.toDst[k].(data := data, crcOk := crcOk)])
  }

  predicate Feasible(j: Job, s: Session, run: seq<Action>)
    decreases |run|
  {
    run == [] || (Enabled(j, s, run[0]) && Feasible(j, Apply(j, s, run[0]), run[1..]))
  }

  function After(j: Job, s: Session, run: seq<Action>): Session
    requires Feasible(j, s, run)
    decreases |run|
  {
    if run == [] then s else After(j, Apply(j, s, run[0]), run[1..])
  }

  /** A fresh source session against a freshly prepared destination. */
  function StartSession(destPath: string, completed: map<string, FileInfo>, store: Store): Session {
    Session(NEW_SRC, Channels([], []), [], [], NewDst(destPath, completed), store, false)
  }

  lemma {:induction false} RunConcat(j: Job, s: Session, r1: seq<Action>, r2: seq<Action>)
    requires Feasible(j, s, r1) && Feasible(j, After(j, s, r1), r2)
    ensures Feasible(j, s, r1 + r2) && After(j, s, r1 + r2) == After(j, After(j, s, r1), r2)
    decreases |r1|
  {
    if r1 == [] {
      assert r1 + r2 == r2;
    } else {
      assert (r1 + r2)[0] == r1[0] && (r1 + r2)[1..] == r1[1..] + r2;
      RunConcat(j, Apply(j, s, r1[0]), r1[1..], r2);
    }
  }

  lemma RunExtends(j: Job, s: Session, run: seq<Action>, a: Action)
    requires Feasible(j, s, run) && Enabled(j, After(j, s, run), a)
    ensures Feasible(j, s, run + [a]) && After(j, s, run + [a]) == Apply(j, After(j, s, run), a)
  {
    var last := After(j, s, run);
    assert Feasible(j, Apply(j, last, a), [a][1..]);
    RunConcat(j, s, run, [a]);
  }

  /** The destination file of entry k. */
  function Target(j: Job, destPath: string, k: nat): string
    requires k < |j.files|
  {
    match TargetOf(destPath, j.files[k].rel)
    case Some(path) => path
    case None => ""
  }

  lemma TargetsAreDistinct(j: Job, destPath: string, k: nat, l: nat)
    requires ValidJob(j, destPath) && k < |j.files| && l < |j.files|
    ensures TargetOf(destPath, j.files[k].rel) == Some(Target(j, destPath, k))
    ensures Target(j, destPath, k) == Target(j, destPath, l) ==> k == l
    ensures Target(j, destPath, k) != ""
  {
    var rk, rl := j.files[k].rel, j.files[l].rel;
    SafeJoinOfPlain(destPath, rk);
    SafeJoinOfPlain(destPath, rl);
    if SafeJoin(destPath, rk) == SafeJoin(destPath, rl) {
      PlainTargetsDistinct(destPath, rk, rl);
    }
  }
}
